/**
 * The `TtuexWorkflow` class of core/workflow_radical_fast.py: the two
 * entry points `execute_login` and `execute_copy_trade`, which run the
 * steps of `RadicalSteps` behind the retry wrapper and fold their results
 * into a report.
 *
 * The browser is an observation bundle. The page a context opens is a
 * number that stands for its identity. The clock readings of the report
 * and the minimum-run-time sleep are not modelled. The report only records
 * whether those timing keys were written.
 */
module RadicalWorkflow {
  import opened Wrappers
  import opened Text
  import opened Retry
  import opened ErrorClassifier
  import opened Reports
  import opened RadicalSteps

  const NoContextLive: string := "BrowserContext not provided for live run."
  const NoContextLogin: string := "BrowserContext not provided to workflow."
  const UnexpectedPrefix: string := "Unexpected error: "

  /** The report's `error` for an exception that reaches the entry point's handlers. */
  function EngineError(e: Exception): string {
    if e.kind == PermanentError then PermanentPrefix + e.message else UnexpectedPrefix + e.message
  }

  /** Every engine error names one of the two handlers that wrote it. */
  lemma EngineErrorPrefix(e: Exception)
    ensures e.kind == PermanentError <==> StartsWith(EngineError(e), PermanentPrefix)
    ensures e.kind != PermanentError <==> StartsWith(EngineError(e), UnexpectedPrefix)
  {
    assert PermanentPrefix[0] != UnexpectedPrefix[0];
    if e.kind == PermanentError {
      assert EngineError(e)[..|PermanentPrefix|] == PermanentPrefix;
      assert EngineError(e)[0] != UnexpectedPrefix[0];
    } else {
      assert EngineError(e)[..|UnexpectedPrefix|] == UnexpectedPrefix;
      assert EngineError(e)[0] != PermanentPrefix[0];
    }
  }

  /**
   * The `steps_to_execute` list of a live run: the attempts of each
   * `@async_retry(max_attempts=3)` step (`login(k)` is what attempt `k + 1`
   * does), the single call of the order-number step, and the follow-up
   * attempts after the click loop has set `click_success`.
   */
  datatype StepCalls = StepCalls(
    login: nat -> Outcome<StepResult>,
    contract: nat -> Outcome<StepResult>,
    copyTrading: nat -> Outcome<StepResult>,
    order: Outcome<StepResult>,
    followUp: bool -> nat -> Outcome<StepResult>)

  /** What the browser shows each step, one observation per attempt of a retried step. */
  datatype Observations = Observations(
    login: nat -> LoginObs,
    contract: nat -> ContractObs,
    copyTrading: nat -> CopyTradingObs,
    order: OrderObs,
    followUp: nat -> FollowUpObs)

  /** The attempts of the retried steps, one per observation. */
  function LoginCalls(obs: nat -> LoginObs, hasStoragePath: bool): nat -> Outcome<StepResult> {
    (k: nat) => LoginAttempt(obs(k), hasStoragePath)
  }

  function ContractCalls(obs: nat -> ContractObs): nat -> Outcome<StepResult> {
    (k: nat) => ContractAttempt(obs(k))
  }

  function CopyTradingCalls(obs: nat -> CopyTradingObs): nat -> Outcome<StepResult> {
    (k: nat) => CopyTradingAttempt(obs(k))
  }

  function FollowUpCalls(obs: nat -> FollowUpObs): bool -> nat -> Outcome<StepResult> {
    (clickSuccess: bool) => (k: nat) => FollowUpAttempt(obs(k), clickSuccess)
  }

  /** The steps of `TtuexWorkflow`, wired to what the browser shows. */
  function WiredSteps(obs: Observations, orderNumber: string, hasStoragePath: bool): StepCalls {
    StepCalls(LoginCalls(obs.login, hasStoragePath), ContractCalls(obs.contract),
              CopyTradingCalls(obs.copyTrading), OrderAttempt(obs.order, orderNumber),
              FollowUpCalls(obs.followUp))
  }

  /** A step outcome that names its step if it returned, and raised one of the two tags if not. */
  predicate Acts(out: Outcome<StepResult>, step: StepName) {
    && (out.Returned? ==> out.value.step == step)
    && (out.Raised? ==> Classified(out.error))
  }

  ghost predicate Behaves(call: nat -> Outcome<StepResult>, step: StepName) {
    forall k :: Acts(call(k), step)
  }

  ghost predicate WellBehaved(s: StepCalls) {
    && Behaves(s.login, Login)
    && Behaves(s.contract, NavigateToContract)
    && Behaves(s.copyTrading, NavigateToCopyTrading)
    && Acts(s.order, EnterOrderNumber)
    && Behaves(s.followUp(true), ExecuteFollowUp)
  }

  lemma LoginCallsBehave(obs: nat -> LoginObs, h: bool)
    ensures Behaves(LoginCalls(obs, h), Login)
  {
    forall k: nat
      ensures Acts(LoginCalls(obs, h)(k), Login)
    {
      var body := LoginBody(obs(k), h);
      assert LoginCalls(obs, h)(k) == LoginCaught(body);
    }
  }

  lemma ContractCallsBehave(obs: nat -> ContractObs)
    ensures Behaves(ContractCalls(obs), NavigateToContract)
  {
    forall k: nat
      ensures Acts(ContractCalls(obs)(k), NavigateToContract)
    {
      var body := ContractBody(obs(k));
      assert ContractCalls(obs)(k) == Caught(ContractClauses, body, obs(k).url);
      assert ContractClauses.step == NavigateToContract;
    }
  }

  lemma CopyTradingCallsBehave(obs: nat -> CopyTradingObs)
    ensures Behaves(CopyTradingCalls(obs), NavigateToCopyTrading)
  {
    forall k: nat
      ensures Acts(CopyTradingCalls(obs)(k), NavigateToCopyTrading)
    {
      var body := CopyTradingBody(obs(k));
      assert CopyTradingCalls(obs)(k) == Caught(CopyTradingClauses, body, obs(k).url);
      assert CopyTradingClauses.step == NavigateToCopyTrading;
    }
  }

  lemma FollowUpCallsBehave(obs: nat -> FollowUpObs)
    ensures Behaves(FollowUpCalls(obs)(true), ExecuteFollowUp)
  {
    forall k: nat
      ensures Acts(FollowUpCalls(obs)(true)(k), ExecuteFollowUp)
    {
      var body := FollowUpBody(obs(k), true);
      assert FollowUpCalls(obs)(true)(k) == Caught(FollowUpClauses, body, obs(k).url);
      assert FollowUpClauses.step == ExecuteFollowUp;
    }
  }

  /**
   * The wired steps behave: every returned result names its step and every
   * exception that escapes a step is a `PermanentError` or a `TemporaryError`.
   */
  lemma WiredStepsBehave(obs: Observations, orderNumber: string, h: bool)
    ensures WellBehaved(WiredSteps(obs, orderNumber, h))
  {
    LoginCallsBehave(obs.login, h);
    ContractCallsBehave(obs.contract);
    CopyTradingCallsBehave(obs.copyTrading);
    FollowUpCallsBehave(obs.followUp);
  }

  // ---------------------------------------------------------------------
  // The retry wrapper seen from the engine

  /**
   * What the caller of a three-attempt wrapped step sees. A first attempt
   * that returns is final. Otherwise one of the three attempts returned,
   * or all three raised and the third exception propagates. The wrapper's
   * `None` (no attempt at all) cannot happen with three attempts.
   */
  function Wrapped(call: nat -> Outcome<StepResult>): (r: Outcome<StepResult>)
    ensures call(0).Returned? ==> r == call(0)
    ensures r.Returned? ==> call(0) == r || call(1) == r || call(2) == r
    ensures r.Raised? <==> call(0).Raised? && call(1).Raised? && call(2).Raised?
    ensures r.Raised? ==> r == call(2)
  {
    ThreeAttempts(call);
    var run := Retried(3, call);
    if run.result.Value? then Returned(run.result.value) else Raised(run.result.error)
  }

  lemma ThreeAttempts(call: nat -> Outcome<StepResult>)
    ensures var run := Retried(3, call);
      && !run.result.NoneReturned?
      && (call(0).Returned? ==> run.result == Value(call(0).value))
      && (run.result.Value? ==> call(0) == Returned(run.result.value) || call(1) == Returned(run.result.value)
                                || call(2) == Returned(run.result.value))
      && (run.result.Propagated? <==> call(0).Raised? && call(1).Raised? && call(2).Raised?)
      && (run.result.Propagated? ==> call(2) == Raised(run.result.error))
  {
    if call(0).Raised? && call(1).Raised? && call(2).Raised? {
      AllRaisedPropagates(3, call);
    }
  }

  /**
   * The outcomes of the five live steps, in order. The order-number step
   * is not wrapped and is called once. The click loop always sets
   * `click_success`, so the follow-up attempts are those after a click.
   */
  function LiveOutcomes(s: StepCalls): (outs: seq<Outcome<StepResult>>)
    ensures |outs| == |LivePipeline|
    ensures WellBehaved(s) ==> forall i :: 0 <= i < |outs| ==> Acts(outs[i], LivePipeline[i])
  {
    [Wrapped(s.login), Wrapped(s.contract), Wrapped(s.copyTrading), s.order, Wrapped(s.followUp(true))]
  }

  // ---------------------------------------------------------------------
  // The fail-fast loop of lines 169-175

  /** The steps list, `success` and `error` the live loop leaves in the report. */
  datatype LiveRun = LiveRun(steps: seq<StepResult>, success: bool, error: Option<string>)

  /**
   * The loop over the steps: each returned result is appended. The loop
   * stops at the first failed result, or at the first exception, which is
   * not appended and whose handler writes the error.
   */
  function FailFast(outs: seq<Outcome<StepResult>>): (run: LiveRun)
    ensures |run.steps| <= |outs|
    ensures forall k :: 0 <= k < |run.steps| ==> outs[k] == Returned(run.steps[k])
    ensures forall k :: 0 <= k < |run.steps| - 1 ==> run.steps[k].success
    ensures run.success <==> forall k :: 0 <= k < |outs| ==> outs[k].Returned? && outs[k].value.success
    ensures run.success ==> |run.steps| == |outs| && run.error.None?
    ensures run.error.Some? ==>
      && |run.steps| < |outs| && outs[|run.steps|].Raised?
      && run.error == Some(EngineError(outs[|run.steps|].error))
      && (forall k :: 0 <= k < |run.steps| ==> run.steps[k].success)
    ensures !run.success && run.error.None? ==> |run.steps| > 0 && !run.steps[|run.steps| - 1].success
    decreases |outs|
  {
    if outs == [] then LiveRun([], true, None)
    else match outs[0]
      case Raised(e) => LiveRun([], false, Some(EngineError(e)))
      case Returned(r) =>
        if !r.success then LiveRun([r], false, None)
        else
          var rest := FailFast(outs[1..]);
          assert forall k :: 1 <= k < |outs| ==> outs[k] == outs[1..][k - 1];
          LiveRun([r] + rest.steps, rest.success, rest.error)
  }

  /** `run` with `done` listed in front of its steps. */
  function After(done: seq<StepResult>, run: LiveRun): LiveRun {
    LiveRun(done + run.steps, run.success, run.error)
  }

  /** Unfolding one successful step of the loop. */
  lemma FailFastStep(done: seq<StepResult>, outs: seq<Outcome<StepResult>>, i: nat, r: StepResult)
    requires i < |outs| && outs[i] == Returned(r) && r.success
    ensures After(done, FailFast(outs[i..])) == After(done + [r], FailFast(outs[i + 1..]))
  {
    assert outs[i..][1..] == outs[i + 1..];
    assert done + [r] + FailFast(outs[i + 1..]).steps == done + ([r] + FailFast(outs[i + 1..]).steps);
  }

  // ---------------------------------------------------------------------
  // The reports of the two entry points

  /** Python truth of `self.storage_state_path`. */
  predicate Truthy(path: Option<string>) {
    path.Some? && path.value != ""
  }

  /**
   * The page after an entry point: opened from the context when the run
   * needs one (`opens`) and none was given, if `new_page()` returned.
   */
  function PageAfter(opens: bool, page: Option<nat>, newPage: Outcome<nat>): (p: Option<nat>)
    ensures page.Some? ==> p == page
    ensures p.Some? <==> page.Some? || (opens && newPage.Returned?)
  {
    if opens && page.None? && newPage.Returned? then Some(newPage.value) else page
  }

  /**
   * The report of `execute_copy_trade`. A dry run fabricates its steps and
   * needs no context. A live run needs a context and a page. Then the five
   * steps run fail-fast. The timing keys are written in the `finally`
   * clause, so every report is timed.
   */
  function CopyTradeReport(user: string, hasContext: bool, hasPage: bool, newPage: Outcome<nat>,
                           orderNumber: string, dryRun: bool, skipHistory: bool, s: StepCalls): (r: Report)
    ensures r.accountName == user && r.orderNumber == Some(orderNumber) && r.dryRun == dryRun && r.timed
  {
    if dryRun then DryRunReport(user, orderNumber, skipHistory)
    else if !hasContext then
      Report(user, Some(orderNumber), false, [], false, Some(EngineError(Perm(NoContextLive))), true)
    else if !hasPage && newPage.Raised? then
      Report(user, Some(orderNumber), false, [], false, Some(EngineError(newPage.error)), true)
    else
      var run := FailFast(LiveOutcomes(s));
      Report(user, Some(orderNumber), false, run.steps, run.success, run.error, true)
  }

  /**
   * The report of `execute_login`. Dry run or not, it needs a context and
   * a page. A failed login result returns early (line 70), before the
   * timing keys are written.
   */
  function LoginReport(user: string, hasContext: bool, hasPage: bool, newPage: Outcome<nat>,
                       dryRun: bool, login: nat -> Outcome<StepResult>): (r: Report)
    ensures r.accountName == user && r.orderNumber.None? && r.dryRun == dryRun
  {
    if !hasContext then Report(user, None, dryRun, [], false, Some(EngineError(Perm(NoContextLogin))), true)
    else if !hasPage && newPage.Raised? then
      Report(user, None, dryRun, [], false, Some(EngineError(newPage.error)), true)
    else
      var out := if dryRun then Returned(Simulated(Login)) else Wrapped(login);
      match out
      case Raised(e) => Report(user, None, dryRun, [], false, Some(EngineError(e)), true)
      case Returned(step) =>
        if step.success then Report(user, None, dryRun, [step], true, None, true)
        else Report(user, None, dryRun, [step], false, None, false)
  }

  // ---------------------------------------------------------------------
  // The class

  class TtuexWorkflow {
    const username: string
    const hasContext: bool                  // a browser context was given
    const storageStatePath: Option<string>
    var page: Option<nat>

    constructor (username: string, hasContext: bool, storageStatePath: Option<string>, page: Option<nat>)
      ensures this.username == username && this.hasContext == hasContext
      ensures this.storageStatePath == storageStatePath && this.page == page
    {
      this.username := username;
      this.hasContext := hasContext;
      this.storageStatePath := storageStatePath;
      this.page := page;
    }

    /** This workflow's step methods on what the browser shows. */
    function Steps(obs: Observations, orderNumber: string): StepCalls {
      WiredSteps(obs, orderNumber, Truthy(storageStatePath))
    }

    /** Opens a page from the context unless one is already there. */
    method EnsurePage(newPage: Outcome<nat>) returns (failure: Option<Exception>)
      modifies this
      ensures page == PageAfter(true, old(page), newPage)
      ensures failure.Some? <==> old(page).None? && newPage.Raised?
      ensures failure.Some? ==> failure.value == newPage.error
    {
      failure := None;
      if page.None? {
        match newPage
        case Raised(e) => failure := Some(e);
        case Returned(p) => page := Some(p);
      }
    }

    /**
     * One live step: the retry wrapper around the retried ones, a single
     * call for the order number. The follow-up step runs its click loop
     * (`clickAttempts` is the configured `follow_order_click_attempts`).
     */
    method RunLiveStep(i: nat, s: StepCalls, clickAttempts: int, click: nat -> Action, jitter: nat -> real)
        returns (out: Outcome<StepResult>)
      requires i < |LivePipeline|
      requires forall k :: 0.0 <= jitter(k) < 0.1
      ensures out == LiveOutcomes(s)[i]
    {
      if i == 3 {
        out := s.order;
        return;
      }
      var call;
      if i == 0 {
        call := s.login;
      } else if i == 1 {
        call := s.contract;
      } else if i == 2 {
        call := s.copyTrading;
      } else {
        var clickSuccess, _ := ClickFollowOrderButton(clickAttempts, click);
        call := s.followUp(clickSuccess);
      }
      var result, calls, sleeps := AsyncRetry(3, 1.0, 2.0, call, jitter);
      ThreeAttempts(call);
      out := if result.Value? then Returned(result.value) else Raised(result.error);
    }

    /** `execute_copy_trade`, given what `new_page()` does and the steps to execute. */
    method ExecuteCopyTrade(orderNumber: string, dryRun: bool, skipHistory: bool, newPage: Outcome<nat>,
                            s: StepCalls, clickAttempts: int, click: nat -> Action, jitter: nat -> real)
        returns (report: Report)
      requires forall k :: 0.0 <= jitter(k) < 0.1
      modifies this
      ensures report == CopyTradeReport(username, hasContext, old(page).Some?, newPage,
                                        orderNumber, dryRun, skipHistory, s)
      ensures page == PageAfter(!dryRun && hasContext, old(page), newPage)
    {
      if dryRun {
        report := DryRunReport(username, orderNumber, skipHistory);
        return;
      }
      if !hasContext {
        report := Report(username, Some(orderNumber), false, [], false, Some(EngineError(Perm(NoContextLive))), true);
        return;
      }
      var failure := EnsurePage(newPage);
      if failure.Some? {
        report := Report(username, Some(orderNumber), false, [], false, Some(EngineError(failure.value)), true);
        return;
      }
      var run := RunPipeline(s, clickAttempts, click, jitter);
      report := Report(username, Some(orderNumber), false, run.steps, run.success, run.error, true);
    }

    /** The loop of lines 169-175 over the five steps. */
    method RunPipeline(s: StepCalls, clickAttempts: int, click: nat -> Action, jitter: nat -> real)
        returns (run: LiveRun)
      requires forall k :: 0.0 <= jitter(k) < 0.1
      ensures run == FailFast(LiveOutcomes(s))
    {
      ghost var outs := LiveOutcomes(s);
      var steps: seq<StepResult> := [];
      var i := 0;
      while i < |LivePipeline|
        invariant 0 <= i <= |LivePipeline| && |steps| == i
        invariant FailFast(outs) == After(steps, FailFast(outs[i..]))
      {
        var out := RunLiveStep(i, s, clickAttempts, click, jitter);
        match out
        case Raised(e) =>
          assert FailFast(outs[i..]) == LiveRun([], false, Some(EngineError(e)));
          return LiveRun(steps, false, Some(EngineError(e)));
        case Returned(r) =>
          if !r.success {
            assert FailFast(outs[i..]) == LiveRun([r], false, None);
            return LiveRun(steps + [r], false, None);
          }
          FailFastStep(steps, outs, i, r);
          steps := steps + [r];
        i := i + 1;
      }
      assert outs[i..] == [];
      run := LiveRun(steps, true, None);
    }

    /** `execute_login`, given what `new_page()` does and the login step's attempts. */
    method ExecuteLogin(dryRun: bool, newPage: Outcome<nat>, login: nat -> Outcome<StepResult>, jitter: nat -> real)
        returns (report: Report)
      requires forall k :: 0.0 <= jitter(k) < 0.1
      modifies this
      ensures report == LoginReport(username, hasContext, old(page).Some?, newPage, dryRun, login)
      ensures page == PageAfter(hasContext, old(page), newPage)
    {
      if !hasContext {
        report := Report(username, None, dryRun, [], false, Some(EngineError(Perm(NoContextLogin))), true);
        return;
      }
      var failure := EnsurePage(newPage);
      if failure.Some? {
        report := Report(username, None, dryRun, [], false, Some(EngineError(failure.value)), true);
        return;
      }
      var out;
      if dryRun {
        out := Returned(Simulated(Login));
      } else {
        var result, calls, sleeps := AsyncRetry(3, 1.0, 2.0, login, jitter);
        ThreeAttempts(login);
        out := if result.Value? then Returned(result.value) else Raised(result.error);
      }
      match out
      case Raised(e) =>
        report := Report(username, None, dryRun, [], false, Some(EngineError(e)), true);
      case Returned(step) =>
        if !step.success {
          report := Report(username, None, dryRun, [step], false, None, false);
          return;
        }
        report := Report(username, None, dryRun, [step], true, None, true);
    }
  }

  // ---------------------------------------------------------------------
  // Properties of the reports

  /**
   * A live copy trade succeeds exactly when all five steps return
   * success. Its steps are then the five results, in pipeline order.
   */
  lemma LiveSuccessIsFiveSteps(user: string, hasPage: bool, newPage: Outcome<nat>, orderNumber: string,
                               skipHistory: bool, s: StepCalls)
    requires WellBehaved(s) && (hasPage || newPage.Returned?)
    ensures var r := CopyTradeReport(user, true, hasPage, newPage, orderNumber, false, skipHistory, s);
      var outs := LiveOutcomes(s);
      && (r.success <==> forall k :: 0 <= k < 5 ==> outs[k].Returned? && outs[k].value.success)
      && (r.success ==> |r.steps| == 5 && forall k :: 0 <= k < 5 ==> r.steps[k].success && r.steps[k].step == LivePipeline[k])
  {
  }

  /**
   * In every live report the listed steps are a prefix of the pipeline,
   * and every step before the last listed one succeeded.
   */
  lemma LiveStepsFollowPipeline(user: string, hasPage: bool, newPage: Outcome<nat>, orderNumber: string,
                                skipHistory: bool, s: StepCalls)
    requires WellBehaved(s)
    ensures var r := CopyTradeReport(user, true, hasPage, newPage, orderNumber, false, skipHistory, s);
      && |r.steps| <= |LivePipeline|
      && (forall k :: 0 <= k < |r.steps| ==> r.steps[k].step == LivePipeline[k])
      && (forall k :: 0 <= k < |r.steps| - 1 ==> r.steps[k].success)
  {
  }

  /**
   * A live copy trade that did not succeed either lists a failed step as
   * its last one and has no error, or has an error that comes from one of
   * the two handlers. After an exception, every step listed succeeded: the
   * step that raised is not in the report.
   */
  lemma LiveFailureShape(user: string, hasContext: bool, hasPage: bool, newPage: Outcome<nat>, orderNumber: string,
                         skipHistory: bool, s: StepCalls)
    ensures var r := CopyTradeReport(user, hasContext, hasPage, newPage, orderNumber, false, skipHistory, s);
      !r.success ==>
        || (r.error.None? && |r.steps| > 0 && !r.steps[|r.steps| - 1].success)
        || (r.error.Some? && (StartsWith(r.error.value, PermanentPrefix) || StartsWith(r.error.value, UnexpectedPrefix))
            && forall k :: 0 <= k < |r.steps| ==> r.steps[k].success)
  {
    var r := CopyTradeReport(user, hasContext, hasPage, newPage, orderNumber, false, skipHistory, s);
    if !hasContext {
      EngineErrorPrefix(Perm(NoContextLive));
    } else if !hasPage && newPage.Raised? {
      EngineErrorPrefix(newPage.error);
    } else if r.error.Some? {
      EngineErrorPrefix(LiveOutcomes(s)[|r.steps|].error);
    }
  }

  /**
   * An error written after a step raised is "Permanent error: …" for a
   * `PermanentError` and "Unexpected error: …" for a `TemporaryError`,
   * the only two tags that escape the steps.
   */
  lemma StepErrorIsTagged(user: string, hasPage: bool, newPage: Outcome<nat>, orderNumber: string,
                          skipHistory: bool, s: StepCalls)
    requires WellBehaved(s) && (hasPage || newPage.Returned?)
    ensures var r := CopyTradeReport(user, true, hasPage, newPage, orderNumber, false, skipHistory, s);
      r.error.Some? ==> exists m: string ::
        r.error == Some(PermanentPrefix + m) || r.error == Some(UnexpectedPrefix + m)
  {
    var r := CopyTradeReport(user, true, hasPage, newPage, orderNumber, false, skipHistory, s);
    if r.error.Some? {
      var e := LiveOutcomes(s)[|r.steps|].error;
      assert r.error == Some(PermanentPrefix + e.message) || r.error == Some(UnexpectedPrefix + e.message);
    }
  }

  /**
   * Without a context a live copy trade fails before any step runs, with a
   * permanent error, whatever the page and the steps would have done.
   */
  lemma NoContextLiveRun(user: string, hasPage: bool, newPage: Outcome<nat>, orderNumber: string,
                         skipHistory: bool, s: StepCalls, hasPage': bool, newPage': Outcome<nat>, s': StepCalls)
    ensures var r := CopyTradeReport(user, false, hasPage, newPage, orderNumber, false, skipHistory, s);
      && r == CopyTradeReport(user, false, hasPage', newPage', orderNumber, false, skipHistory, s')
      && r.steps == [] && !r.success && r.error.Some? && StartsWith(r.error.value, PermanentPrefix)
  {
    EngineErrorPrefix(Perm(NoContextLive));
  }

  /**
   * A dry-run copy trade needs no context and always succeeds, whatever
   * the page and the steps would have done. A dry-run login without a
   * context fails with a permanent error.
   */
  lemma DryRunNeedsContextOnlyForLogin(user: string, hasContext: bool, hasPage: bool, newPage: Outcome<nat>,
                                       orderNumber: string, skipHistory: bool, s: StepCalls)
    ensures var r := CopyTradeReport(user, hasContext, hasPage, newPage, orderNumber, true, skipHistory, s);
      r.success && r == CopyTradeReport(user, false, false, Raised(Perm(NoContextLive)), orderNumber, true, skipHistory, s)
    ensures var r := LoginReport(user, false, hasPage, newPage, true, s.login);
      !r.success && r.steps == [] && r.error.Some? && StartsWith(r.error.value, PermanentPrefix)
  {
    EngineErrorPrefix(Perm(NoContextLogin));
  }

  /**
   * A login report lacks its timing keys exactly when the login step
   * returned a failed result.
   */
  lemma LoginUntimedIffStepFailed(user: string, hasContext: bool, hasPage: bool, newPage: Outcome<nat>,
                                  dryRun: bool, login: nat -> Outcome<StepResult>)
    ensures var r := LoginReport(user, hasContext, hasPage, newPage, dryRun, login);
      !r.timed <==> |r.steps| == 1 && !r.steps[0].success
  {
  }

  /**
   * Whatever the first attempt raised (a `PermanentError` included), a
   * second attempt that returns gives the step's result.
   */
  lemma FirstFailureRetried(call: nat -> Outcome<StepResult>)
    requires call(0).Raised? && call(1).Returned?
    ensures Wrapped(call) == call(1)
  {
    FirstReturnWins(3, call, 1);
  }
}
