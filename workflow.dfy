/**
 * The `TtuexWorkflow` class of core/workflow.py, the engine the actions
 * use. Its steps catch every exception and return a failure result, so
 * the two-attempt retry wrappers around them only ever make one call. The
 * entry points append each result and stop at the first failure by
 * raising "Step '<step>' failed: <error>", which their own handler writes
 * into the report.
 *
 * Browser calls are observations: an `Action` completes (`None`) or
 * raises (`Some(e)`), and a sequence of awaited calls stops at the first
 * one that raises.
 */
module Workflow {
  import opened Wrappers
  import opened Text
  import opened Retry
  import opened Reports
  import RadicalWorkflow

  type Action = Option<Exception>

  /** The first of a sequence of awaited calls that raises, if any. */
  function FirstError(calls: seq<Action>): (a: Action)
    ensures a.None? <==> forall i :: 0 <= i < |calls| ==> calls[i].None?
    ensures a.Some? ==> exists i :: 0 <= i < |calls| && calls[i] == a && forall j :: 0 <= j < i ==> calls[j].None?
  {
    if calls == [] then None
    else if calls[0].Some? then calls[0]
    else
      var rest := FirstError(calls[1..]);
      assert forall i :: 1 <= i < |calls| ==> calls[i] == calls[1..][i - 1];
      rest
  }

  /** The call at `i` raises and all before it complete: its exception is the one that escapes. */
  lemma {:induction false} FirstErrorAt(calls: seq<Action>, i: nat)
    requires i < |calls| && calls[i].Some? && forall j :: 0 <= j < i ==> calls[j].None?
    ensures FirstError(calls) == calls[i]
    decreases i
  {
    if i > 0 {
      assert calls[1..][i - 1] == calls[i];
      FirstErrorAt(calls[1..], i - 1);
    }
  }

  // ---------------------------------------------------------------------
  // _step_login (lines 188-288)

  const LoginTimeoutLead: string := "Timeout during login step: "
  const LoginUnexpectedLead: string := "Unexpected error during login: "

  datatype LoginObs = LoginObs(
    storageFile: bool,          // the storage-state file exists
    probeGoto: Action,          // page.goto(base_url) of the session probe
    probeMarker: Action,        // waiting for the post-login marker during the probe
    loginGoto: Action,          // page.goto(login_url)
    formWait: Action,           // waiting for the username input
    fillUser: Action,
    fillPassword: Action,
    submit: Action,
    redirectUrls: seq<string>,  // the URLs the page shows until the redirect wait times out
    redirectTimeout: string,    // the text of that timeout
    marker: Action)             // waiting for the post-login marker

  /** The predicate `wait_for_url` waits for at line 247: the URL has left the login page. */
  predicate LeftLoginPage(url: string) {
    !Contains(url, "/login-page")
  }

  /** `page.wait_for_url`: completes at the first URL that has left the login page, else times out. */
  function WaitForRedirect(urls: seq<string>, timeout: string): (a: Action)
    ensures a.None? <==> exists i :: 0 <= i < |urls| && LeftLoginPage(urls[i])
    ensures a.Some? ==> a.value == Exception(PlaywrightTimeout, timeout)
  {
    if urls == [] then Some(Exception(PlaywrightTimeout, timeout))
    else if LeftLoginPage(urls[0]) then None
    else
      var rest := WaitForRedirect(urls[1..], timeout);
      assert forall i :: 1 <= i < |urls| ==> urls[i] == urls[1..][i - 1];
      rest
  }

  /** The calls of the full login, in order. */
  function LoginCalls(o: LoginObs): seq<Action> {
    [o.loginGoto, o.formWait, o.fillUser, o.fillPassword, o.submit,
     WaitForRedirect(o.redirectUrls, o.redirectTimeout), o.marker]
  }

  /**
   * One call of `_step_login` (not a dry run). A session probe that
   * completes returns a cached success. Any probe failure is swallowed and
   * the full login runs. The first call that raises gives a failure whose
   * message says whether it was a Playwright timeout.
   */
  function LoginStep(o: LoginObs, hasStoragePath: bool): (r: StepResult)
    ensures r.step == Login
    ensures r.success <==> (hasStoragePath && o.storageFile && o.probeGoto.None? && o.probeMarker.None?)
                           || FirstError(LoginCalls(o)).None?
    ensures !r.success ==> r.error.Some?
  {
    if hasStoragePath && o.storageFile && o.probeGoto.None? && o.probeMarker.None? then
      StepResult(Login, true, None, false, true, None, None)
    else match FirstError(LoginCalls(o))
      case None => Succeeded(Login)
      case Some(e) =>
        Failed(Login, (if e.kind == PlaywrightTimeout then LoginTimeoutLead else LoginUnexpectedLead) + e.message)
  }

  /** A storage file and a probe that completes give the cached result, without the login form. */
  lemma CachedSession(o: LoginObs)
    requires o.storageFile && o.probeGoto.None? && o.probeMarker.None?
    ensures LoginStep(o, true) == StepResult(Login, true, None, false, true, None, None)
    ensures LoginStep(o, true).cached && !LoginStep(o, false).cached
  {
  }

  /** A probe that raises, of whatever kind, falls through to the full login as if there were no session. */
  lemma ProbeFailureFallsThrough(o: LoginObs, hasStoragePath: bool)
    requires o.probeGoto.Some? || o.probeMarker.Some?
    ensures LoginStep(o, hasStoragePath) == LoginStep(o, false)
    ensures LoginStep(o, hasStoragePath) == LoginStep(o.(storageFile := false), true)
  {
  }

  /** A redirect that never leaves the login page fails the login with the timeout lead. */
  lemma StalledRedirectFails(o: LoginObs, hasStoragePath: bool)
    requires !(hasStoragePath && o.storageFile)
    requires o.loginGoto.None? && o.formWait.None? && o.fillUser.None? && o.fillPassword.None? && o.submit.None?
    requires forall i :: 0 <= i < |o.redirectUrls| ==> Contains(o.redirectUrls[i], "/login-page")
    ensures LoginStep(o, hasStoragePath) == Failed(Login, LoginTimeoutLead + o.redirectTimeout)
  {
    assert WaitForRedirect(o.redirectUrls, o.redirectTimeout).Some?;
    FirstErrorAt(LoginCalls(o), 5);
  }

  // ---------------------------------------------------------------------
  // _step_navigate_to_contract, _step_navigate_to_copy_trading,
  // _step_enter_order_number (lines 290-392)

  const ContractErrorLead: string := "Error navigating to contract page: "

  datatype ContractObs = ContractObs(goto: Action, marker: Action)

  function ContractStep(o: ContractObs): (r: StepResult)
    ensures r.step == NavigateToContract
    ensures r.success <==> o.goto.None? && o.marker.None?
    ensures !r.success ==>
      FirstError([o.goto, o.marker]).Some? && r.error == Some(ContractErrorLead + FirstError([o.goto, o.marker]).value.message)
  {
    var calls := [o.goto, o.marker];
    assert calls[0] == o.goto && calls[1] == o.marker;
    match FirstError([o.goto, o.marker])
    case None => Succeeded(NavigateToContract)
    case Some(e) => Failed(NavigateToContract, ContractErrorLead + e.message)
  }

  datatype CopyTradingObs = CopyTradingObs(wait: Action, scroll: Action, click: Action)

  function CopyTradingStep(o: CopyTradingObs): (r: StepResult)
    ensures r.step == NavigateToCopyTrading
    ensures r.success <==> o.wait.None? && o.scroll.None? && o.click.None?
    ensures !r.success ==>
      FirstError([o.wait, o.scroll, o.click]).Some? && r.error == Some(FirstError([o.wait, o.scroll, o.click]).value.message)
  {
    var calls := [o.wait, o.scroll, o.click];
    assert calls[0] == o.wait && calls[1] == o.scroll && calls[2] == o.click;
    match FirstError([o.wait, o.scroll, o.click])
    case None => Succeeded(NavigateToCopyTrading)
    case Some(e) => Failed(NavigateToCopyTrading, e.message)
  }

  /** `fill` of the order-number input. */
  function OrderStep(fill: Action, orderNumber: string): (r: StepResult)
    ensures r.step == EnterOrderNumber
    ensures r.success <==> fill.None?
    ensures r.success ==> r.orderNumber == Some(orderNumber)
    ensures !r.success ==> r.error == Some(fill.value.message)
  {
    match fill
    case None => StepResult(EnterOrderNumber, true, None, false, false, Some(orderNumber), None)
    case Some(e) => Failed(EnterOrderNumber, e.message)
  }

  // ---------------------------------------------------------------------
  // _step_execute_follow_up (lines 394-430)

  const FollowUpTimeoutMessage: string := "Timeout waiting for confirmation toast after clicking follow-up."
  const FollowUpFailedLead: string := "Follow-up failed with message: "
  /** The two phrases the toast is checked for, as written (the second is "réussi" mis-decoded). */
  const FollowedPhrase: string := "succesfully followed"
  const SuiviPhrase: string := "suivi r\U{221A}\U{00A9}ussi"

  datatype FollowUpObs = FollowUpObs(
    click: Action,                   // clicking the follow-order button
    toastWait: Action,               // waiting for the toast
    toastText: Outcome<Option<string>>)  // toast.text_content()

  /** The success test of line 415, on the stripped toast text. */
  predicate ToastConfirms(text: string) {
    Contains(Lower(text), FollowedPhrase) || Contains(Lower(text), SuiviPhrase)
  }

  /** The error raised before the toast text was read, if any. */
  function FollowUpError(o: FollowUpObs): Action {
    var pre := FirstError([o.click, o.toastWait]);
    if pre.Some? then pre else if o.toastText.Raised? then Some(o.toastText.error) else None
  }

  /** `(text or "").strip()`. */
  function ToastText(text: Option<string>): string {
    Strip(if text.Some? then text.value else "")
  }

  function FollowUpStep(o: FollowUpObs): (r: StepResult)
    ensures r.step == ExecuteFollowUp
    ensures r.success ==> r.toastMessage.Some? && ToastConfirms(r.toastMessage.value)
    ensures !r.success ==> r.error.Some?
  {
    match FollowUpError(o)
    case Some(e) =>
      if e.kind == PlaywrightTimeout then Failed(ExecuteFollowUp, FollowUpTimeoutMessage)
      else Failed(ExecuteFollowUp, e.message)
    case None =>
      var text := ToastText(o.toastText.value);
      if ToastConfirms(text) then StepResult(ExecuteFollowUp, true, None, false, false, None, Some(text))
      else Failed(ExecuteFollowUp, FollowUpFailedLead + text)
  }

  /**
   * The follow-up succeeds exactly when the click and the toast completed
   * and the stripped toast text contains one of the two phrases. It then
   * carries that text; otherwise it fails with the text in the message.
   */
  lemma ToastDecides(o: FollowUpObs)
    requires o.click.None? && o.toastWait.None? && o.toastText.Returned?
    ensures var text := ToastText(o.toastText.value);
      && (FollowUpStep(o).success <==> ToastConfirms(text))
      && (ToastConfirms(text) ==> FollowUpStep(o).toastMessage == Some(text))
      && (!ToastConfirms(text) ==> FollowUpStep(o).error == Some(FollowUpFailedLead + text))
  {
    assert FollowUpError(o).None? by {
      assert FirstError([o.click, o.toastWait]).None?;
    }
  }

  /** Any Playwright timeout before the toast text is read gives the fixed timeout message. */
  lemma FollowUpTimeout(o: FollowUpObs)
    requires FollowUpError(o).Some? && FollowUpError(o).value.kind == PlaywrightTimeout
    ensures FollowUpStep(o) == Failed(ExecuteFollowUp, FollowUpTimeoutMessage)
  {
  }

  /** "Successfully followed", correctly spelt, does not contain the misspelt phrase. */
  /** A 21-character text with 'u' second and 's' seventh cannot hold the 20-character phrase. */
  lemma SpeltOutShape(l: string)
    requires |l| == 21 && l[1] == 'u' && l[6] == 's'
    ensures !Contains(l, FollowedPhrase)
  {
    assert !OccursAt(l, FollowedPhrase, 0) by {
      assert l[0..|FollowedPhrase|][6] == l[6];
    }
    assert !OccursAt(l, FollowedPhrase, 1) by {
      assert l[1..1 + |FollowedPhrase|][0] == l[1];
    }
  }

  lemma CorrectSpellingNotConfirmed()
    ensures !ToastConfirms("Successfully followed")
  {
    var l := Lower("Successfully followed");
    assert |l| == 21 && l[1] == 'u' && l[6] == 's';
    SpeltOutShape(l);
    assert '\U{221A}' !in l;
    MissingChar(l, SuiviPhrase, '\U{221A}');
  }

  /** "suivi réussi", correctly encoded, does not contain the mis-decoded phrase. */
  lemma CorrectEncodingNotConfirmed()
    ensures !ToastConfirms("suivi r\U{00E9}ussi")
  {
    var l := Lower("suivi r\U{00E9}ussi");
    assert '\U{221A}' !in l;
    MissingChar(l, SuiviPhrase, '\U{221A}');
    assert 'f' !in l;
    MissingChar(l, FollowedPhrase, 'f');
  }

  /** A toast without surrounding whitespace that does not confirm fails the step. */
  lemma UnconfirmedToastFails(text: string)
    requires Strip(text) == text && !ToastConfirms(text)
    ensures !FollowUpStep(FollowUpObs(None, None, Returned(Some(text)))).success
  {
    var o := FollowUpObs(None, None, Returned(Some(text)));
    var calls: seq<Action> := [None, None];
    assert calls[0].None? && calls[1].None?;
    assert FirstError(calls) == None;
    assert FollowUpError(o) == None;
    assert ToastText(o.toastText.value) == text;
    assert FollowUpStep(o) == Failed(ExecuteFollowUp, FollowUpFailedLead + text);
  }

  /** Either correct toast text is therefore reported as a failed follow-up. */
  lemma CorrectToastsFail()
    ensures !FollowUpStep(FollowUpObs(None, None, Returned(Some("Successfully followed")))).success
    ensures !FollowUpStep(FollowUpObs(None, None, Returned(Some("suivi r\U{00E9}ussi")))).success
  {
    var a := "Successfully followed";
    var b := "suivi r\U{00E9}ussi";
    assert StripLeft(a) == a && StripRight(a) == a;
    assert StripLeft(b) == b && StripRight(b) == b;
    CorrectSpellingNotConfirmed();
    CorrectEncodingNotConfirmed();
    UnconfirmedToastFails(a);
    UnconfirmedToastFails(b);
  }

  // ---------------------------------------------------------------------
  // The live run

  /** What the browser shows each step. A wrapped step sees observation `k` on call `k + 1`. */
  datatype Observations = Observations(
    login: nat -> LoginObs,
    contract: nat -> ContractObs,
    copyTrading: nat -> CopyTradingObs,
    order: Action,
    followUp: nat -> FollowUpObs)

  /**
   * The step coroutines the engine awaits, call `k` of each wrapped one
   * giving its result. They return a result and never raise: every
   * exception is handled inside the step.
   */
  datatype StepCalls = StepCalls(
    login: nat -> StepResult,
    contract: nat -> StepResult,
    copyTrading: nat -> StepResult,
    order: StepResult,
    followUp: nat -> StepResult)

  /** The steps of lines 188-430, wired to what the browser shows. */
  function WiredSteps(obs: Observations, orderNumber: string, hasStoragePath: bool): StepCalls {
    StepCalls((k: nat) => LoginStep(obs.login(k), hasStoragePath),
              (k: nat) => ContractStep(obs.contract(k)),
              (k: nat) => CopyTradingStep(obs.copyTrading(k)),
              OrderStep(obs.order, orderNumber),
              (k: nat) => FollowUpStep(obs.followUp(k)))
  }

  /** A step result for `step`, with an error whenever it failed. */
  predicate Labelled(r: StepResult, step: StepName) {
    r.step == step && (!r.success ==> r.error.Some?)
  }

  ghost predicate WellLabelled(s: StepCalls) {
    && (forall k :: Labelled(s.login(k), Login))
    && (forall k :: Labelled(s.contract(k), NavigateToContract))
    && (forall k :: Labelled(s.copyTrading(k), NavigateToCopyTrading))
    && Labelled(s.order, EnterOrderNumber)
    && (forall k :: Labelled(s.followUp(k), ExecuteFollowUp))
  }

  lemma WiredStepsLabelled(obs: Observations, orderNumber: string, hasStoragePath: bool)
    ensures WellLabelled(WiredSteps(obs, orderNumber, hasStoragePath))
  {
    var s := WiredSteps(obs, orderNumber, hasStoragePath);
    forall k: nat ensures Labelled(s.login(k), Login) {
      assert s.login(k) == LoginStep(obs.login(k), hasStoragePath);
    }
    forall k: nat ensures Labelled(s.contract(k), NavigateToContract) {
      assert s.contract(k) == ContractStep(obs.contract(k));
    }
    forall k: nat ensures Labelled(s.copyTrading(k), NavigateToCopyTrading) {
      assert s.copyTrading(k) == CopyTradingStep(obs.copyTrading(k));
    }
    forall k: nat ensures Labelled(s.followUp(k), ExecuteFollowUp) {
      assert s.followUp(k) == FollowUpStep(obs.followUp(k));
    }
  }

  /**
   * The results of the five live steps. No step raises, so the wrappers
   * call each wrapped step once, and only its first call counts.
   */
  function LiveResults(s: StepCalls): (rs: seq<StepResult>)
    ensures |rs| == |LivePipeline|
    ensures WellLabelled(s) ==> forall i :: 0 <= i < |rs| ==> Labelled(rs[i], LivePipeline[i])
  {
    [s.login(0), s.contract(0), s.copyTrading(0), s.order, s.followUp(0)]
  }

  /** The text of the exception raised for a failed step. */
  function StepFailed(r: StepResult): string {
    "Step '" + StepKey(r.step) + "' failed: " + (if r.error.Some? then r.error.value else "None")
  }

  datatype LiveRun = LiveRun(steps: seq<StepResult>, success: bool, error: Option<string>)

  /**
   * The loop of lines 155-159: each result is appended, and the first
   * failed one ends the run with its "Step … failed" error.
   */
  function FailFast(results: seq<StepResult>): (run: LiveRun)
    ensures FailFastRun(results, run)
    decreases |results|
  {
    if results == [] then LiveRun([], true, None)
    else if !results[0].success then LiveRun([results[0]], false, Some(StepFailed(results[0])))
    else
      var rest := FailFast(results[1..]);
      FailFastCons(results, rest);
      LiveRun([results[0]] + rest.steps, rest.success, rest.error)
  }

  /**
   * What a fail-fast run over `results` is: a prefix of the results that
   * is the whole list exactly when every step succeeded, and otherwise
   * ends at the first failed step, whose error is the run's.
   */
  predicate FailFastRun(results: seq<StepResult>, run: LiveRun) {
    && |run.steps| <= |results| && run.steps == results[..|run.steps|]
    && (run.success <==> forall k :: 0 <= k < |results| ==> results[k].success)
    && (run.success ==> run.steps == results && run.error.None?)
    && (!run.success ==>
      && |run.steps| > 0
      && !run.steps[|run.steps| - 1].success
      && (forall k :: 0 <= k < |run.steps| - 1 ==> run.steps[k].success)
      && run.error == Some(StepFailed(run.steps[|run.steps| - 1])))
  }

  /** A succeeded first step in front of a fail-fast run of the rest. */
  lemma FailFastCons(results: seq<StepResult>, rest: LiveRun)
    requires results != [] && results[0].success && FailFastRun(results[1..], rest)
    ensures FailFastRun(results, LiveRun([results[0]] + rest.steps, rest.success, rest.error))
  {
    var steps := [results[0]] + rest.steps;
    assert forall k :: 1 <= k < |results| ==> results[k] == results[1..][k - 1];
    assert results[..1 + |rest.steps|] == [results[0]] + results[1..][..|rest.steps|];
    assert forall k :: 1 <= k < |steps| ==> steps[k] == rest.steps[k - 1];
    assert rest.steps != [] ==> steps[|steps| - 1] == rest.steps[|rest.steps| - 1];
  }

  function After(done: seq<StepResult>, run: LiveRun): LiveRun {
    LiveRun(done + run.steps, run.success, run.error)
  }

  lemma FailFastStep(done: seq<StepResult>, results: seq<StepResult>, i: nat)
    requires i < |results| && results[i].success
    ensures After(done, FailFast(results[i..])) == After(done + [results[i]], FailFast(results[i + 1..]))
  {
    assert results[i..][1..] == results[i + 1..];
    assert done + [results[i]] + FailFast(results[i + 1..]).steps
        == done + ([results[i]] + FailFast(results[i + 1..]).steps);
  }

  // ---------------------------------------------------------------------
  // The reports

  const NoContextLive: string := "BrowserContext not provided for live run."
  const NoContextLogin: string := "BrowserContext not provided to workflow."

  /**
   * The report of `execute_copy_trade`. The timing keys are written in the
   * `finally` clause, so every report is timed.
   */
  function CopyTradeReport(user: string, hasContext: bool, hasPage: bool, newPage: Outcome<nat>,
                           orderNumber: string, dryRun: bool, skipHistory: bool, s: StepCalls): (r: Report)
    ensures r.accountName == user && r.orderNumber == Some(orderNumber) && r.dryRun == dryRun && r.timed
  {
    if dryRun then DryRunReport(user, orderNumber, skipHistory)
    else if !hasContext then Report(user, Some(orderNumber), false, [], false, Some(NoContextLive), true)
    else if !hasPage && newPage.Raised? then
      Report(user, Some(orderNumber), false, [], false, Some(newPage.error.message), true)
    else
      var run := FailFast(LiveResults(s));
      Report(user, Some(orderNumber), false, run.steps, run.success, run.error, true)
  }

  /**
   * The report of `execute_login`. Every exception is caught inside the
   * `try`, so the timing keys are always written. A failed login result
   * is listed and its error is raised as "Step 'login' failed: …".
   */
  /** The text of line 59, which names the login step literally. */
  function LoginFailed(r: StepResult): string {
    "Step 'login' failed: " + (if r.error.Some? then r.error.value else "None")
  }

  function LoginReport(user: string, hasContext: bool, hasPage: bool, newPage: Outcome<nat>,
                       dryRun: bool, login: nat -> StepResult): (r: Report)
    ensures r.accountName == user && r.orderNumber.None? && r.dryRun == dryRun && r.timed
    ensures r.success <==> r.error.None?
  {
    if !hasContext then Report(user, None, dryRun, [], false, Some(NoContextLogin), true)
    else if !hasPage && newPage.Raised? then Report(user, None, dryRun, [], false, Some(newPage.error.message), true)
    else
      var step := if dryRun then Simulated(Login) else login(0);
      if step.success then Report(user, None, dryRun, [step], true, None, true)
      else Report(user, None, dryRun, [step], false, Some(LoginFailed(step)), true)
  }

  // ---------------------------------------------------------------------
  // The class

  class TtuexWorkflow {
    const username: string
    const hasContext: bool                  // a browser context was given
    const storageStatePath: Option<string>
    var page: Option<nat>

    constructor (username: string, hasContext: bool, storageStatePath: Option<string>, page: Option<nat>)
      ensures this.username == username && this.hasContext == hasContext
      ensures this.storageStatePath == storageStatePath && this.page == page
    {
      this.username := username;
      this.hasContext := hasContext;
      this.storageStatePath := storageStatePath;
      this.page := page;
    }

    /** The steps of this workflow: the login probe runs when a storage path is set. */
    function Steps(obs: Observations, orderNumber: string): StepCalls
      reads this
    {
      WiredSteps(obs, orderNumber, RadicalWorkflow.Truthy(storageStatePath))
    }

    /** Opens a page from the context unless one is already there. */
    method EnsurePage(newPage: Outcome<nat>) returns (failure: Option<Exception>)
      modifies this
      ensures page == RadicalWorkflow.PageAfter(true, old(page), newPage)
      ensures failure.Some? <==> old(page).None? && newPage.Raised?
      ensures failure.Some? ==> failure.value == newPage.error
    {
      failure := None;
      if page.None? {
        match newPage
        case Raised(e) => failure := Some(e);
        case Returned(p) => page := Some(p);
      }
    }

    /**
     * Live step `i`: the wrapped steps go through a two-attempt retry
     * wrapper, the order-number step is awaited directly. Each step body
     * runs once.
     */
    method RunStep(i: nat, s: StepCalls, jitter: nat -> real) returns (result: StepResult, calls: nat)
      requires i < |LivePipeline|
      requires forall k :: 0.0 <= jitter(k) < 0.1
      ensures result == LiveResults(s)[i]
      ensures calls == 1
    {
      if i == 3 {
        return s.order, 1;
      }
      var call: nat -> Outcome<StepResult>;
      if i == 0 {
        call := (k: nat) => Returned(s.login(k));
      } else if i == 1 {
        call := (k: nat) => Returned(s.contract(k));
      } else if i == 2 {
        call := (k: nat) => Returned(s.copyTrading(k));
      } else {
        call := (k: nat) => Returned(s.followUp(k));
      }
      var run, sleeps;
      run, calls, sleeps := AsyncRetry(2, 1.0, 2.0, call, jitter);
      NeverRaisingCalledOnce(2, call);
      result := run.value;
    }

    /** `execute_copy_trade`, given what `new_page()` does and the step coroutines. */
    method ExecuteCopyTrade(orderNumber: string, dryRun: bool, skipHistory: bool, newPage: Outcome<nat>,
                            s: StepCalls, jitter: nat -> real)
        returns (report: Report)
      requires forall k :: 0.0 <= jitter(k) < 0.1
      modifies this
      ensures report == CopyTradeReport(username, hasContext, old(page).Some?, newPage, orderNumber, dryRun,
                                        skipHistory, s)
      ensures page == RadicalWorkflow.PageAfter(!dryRun && hasContext, old(page), newPage)
    {
      if dryRun {
        report := DryRunReport(username, orderNumber, skipHistory);
        return;
      }
      if !hasContext {
        report := Report(username, Some(orderNumber), false, [], false, Some(NoContextLive), true);
        return;
      }
      var failure := EnsurePage(newPage);
      if failure.Some? {
        report := Report(username, Some(orderNumber), false, [], false, Some(failure.value.message), true);
        return;
      }
      var run := RunPipeline(s, jitter);
      report := Report(username, Some(orderNumber), false, run.steps, run.success, run.error, true);
    }

    /** The append-then-raise loop of lines 155-159. */
    method RunPipeline(s: StepCalls, jitter: nat -> real) returns (run: LiveRun)
      requires forall k :: 0.0 <= jitter(k) < 0.1
      ensures run == FailFast(LiveResults(s))
    {
      ghost var results := LiveResults(s);
      var steps: seq<StepResult> := [];
      var i := 0;
      while i < |LivePipeline|
        invariant 0 <= i <= |LivePipeline| && |steps| == i
        invariant FailFast(results) == After(steps, FailFast(results[i..]))
      {
        var r, _ := RunStep(i, s, jitter);
        if !r.success {
          assert FailFast(results[i..]) == LiveRun([r], false, Some(StepFailed(r)));
          return LiveRun(steps + [r], false, Some(StepFailed(r)));
        }
        FailFastStep(steps, results, i);
        steps := steps + [r];
        i := i + 1;
      }
      assert results[i..] == [];
      run := LiveRun(steps, true, None);
    }

    /** `execute_login`, given what `new_page()` does and the login coroutine. */
    method ExecuteLogin(dryRun: bool, newPage: Outcome<nat>, login: nat -> StepResult, jitter: nat -> real)
        returns (report: Report)
      requires forall k :: 0.0 <= jitter(k) < 0.1
      modifies this
      ensures report == LoginReport(username, hasContext, old(page).Some?, newPage, dryRun, login)
      ensures page == RadicalWorkflow.PageAfter(hasContext, old(page), newPage)
    {
      if !hasContext {
        report := Report(username, None, dryRun, [], false, Some(NoContextLogin), true);
        return;
      }
      var failure := EnsurePage(newPage);
      if failure.Some? {
        report := Report(username, None, dryRun, [], false, Some(failure.value.message), true);
        return;
      }
      var step;
      if dryRun {
        step := Simulated(Login);
      } else {
        var call := (k: nat) => Returned(login(k));
        var run, calls, sleeps := AsyncRetry(2, 1.0, 2.0, call, jitter);
        NeverRaisingCalledOnce(2, call);
        step := run.value;
      }
      if step.success {
        report := Report(username, None, dryRun, [step], true, None, true);
      } else {
        report := Report(username, None, dryRun, [step], false, Some(LoginFailed(step)), true);
      }
    }
  }

  // ---------------------------------------------------------------------
  // Properties of the reports

  /**
   * A live copy trade succeeds exactly when all five steps succeed, and
   * then lists all five in pipeline order.
   */
  lemma LiveSuccessIsFiveSteps(user: string, hasPage: bool, newPage: Outcome<nat>, orderNumber: string,
                               skipHistory: bool, s: StepCalls)
    requires WellLabelled(s)
    requires hasPage || newPage.Returned?
    ensures var r := CopyTradeReport(user, true, hasPage, newPage, orderNumber, false, skipHistory, s);
      var rs := LiveResults(s);
      && (r.success <==> forall k :: 0 <= k < 5 ==> rs[k].success)
      && (r.success ==> |r.steps| == 5 && forall k :: 0 <= k < 5 ==> r.steps[k].success && r.steps[k].step == LivePipeline[k])
  {
  }

  /**
   * A live copy trade that fails after its steps ran lists the failed
   * step last, after successes only, and its error is
   * "Step '<step>' failed: <the step's error>".
   */
  lemma StepFailureReported(user: string, hasPage: bool, newPage: Outcome<nat>, orderNumber: string,
                            skipHistory: bool, s: StepCalls)
    requires WellLabelled(s)
    requires hasPage || newPage.Returned?
    ensures var r := CopyTradeReport(user, true, hasPage, newPage, orderNumber, false, skipHistory, s);
      !r.success ==>
        && 0 < |r.steps| <= |LivePipeline|
        && (forall k :: 0 <= k < |r.steps| ==> r.steps[k].step == LivePipeline[k])
        && (forall k :: 0 <= k < |r.steps| - 1 ==> r.steps[k].success)
        && var last := r.steps[|r.steps| - 1];
           !last.success && last.error.Some?
           && r.error == Some("Step '" + StepKey(last.step) + "' failed: " + last.error.value)
  {
  }

  /** Without a context a live copy trade fails before any step, whatever the steps would do. */
  lemma NoContextLiveRun(user: string, hasPage: bool, newPage: Outcome<nat>, orderNumber: string,
                         skipHistory: bool, s: StepCalls,
                         hasPage': bool, newPage': Outcome<nat>, s': StepCalls)
    ensures var r := CopyTradeReport(user, false, hasPage, newPage, orderNumber, false, skipHistory, s);
      && r == CopyTradeReport(user, false, hasPage', newPage', orderNumber, false, skipHistory, s')
      && r.steps == [] && !r.success && r.error == Some(NoContextLive)
  {
  }

  /** Both engines fabricate the same dry-run report, with or without a context. */
  lemma DryRunMatchesRadical(user: string, hasContext: bool, hasPage: bool, newPage: Outcome<nat>,
                             orderNumber: string, skipHistory: bool, s: StepCalls,
                             s': RadicalWorkflow.StepCalls)
    ensures CopyTradeReport(user, hasContext, hasPage, newPage, orderNumber, true, skipHistory, s)
         == RadicalWorkflow.CopyTradeReport(user, false, false, newPage, orderNumber, true, skipHistory, s')
    ensures CopyTradeReport(user, hasContext, hasPage, newPage, orderNumber, true, skipHistory, s).success
  {
  }

  /**
   * A failed login is reported with its result listed and the error
   * "Step 'login' failed: <error>".
   */
  lemma LoginFailureReported(user: string, hasPage: bool, newPage: Outcome<nat>, login: nat -> StepResult)
    requires hasPage || newPage.Returned?
    requires !login(0).success && login(0).error.Some?
    ensures var r := LoginReport(user, true, hasPage, newPage, false, login);
      && r.steps == [login(0)] && !r.success && r.timed
      && r.error == Some("Step 'login' failed: " + login(0).error.value)
  {
  }

  /** Wired to the browser, a login that has neither a live session nor a completed login fails the report. */
  lemma WiredLoginFailure(user: string, hasPage: bool, newPage: Outcome<nat>, obs: Observations, h: bool)
    requires hasPage || newPage.Returned?
    requires !(h && obs.login(0).storageFile && obs.login(0).probeGoto.None? && obs.login(0).probeMarker.None?)
    requires FirstError(LoginCalls(obs.login(0))).Some?
    ensures !LoginReport(user, true, hasPage, newPage, false, WiredSteps(obs, "", h).login).success
  {
    assert WiredSteps(obs, "", h).login(0) == LoginStep(obs.login(0), h);
  }
}
