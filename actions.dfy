/**
 * actions.py: which accounts to process, and the per-account workers that
 * open a page in the account's context, run the wired workflow on it, and
 * turn an exception into a failure report.
 *
 * As written, `page` is first bound by `page = await context.new_page()`
 * inside the `try`. When `new_page()` raises, the `finally` clause reads
 * the unbound name, and the resulting `UnboundLocalError` escapes in place
 * of the failure report (or of the original exception, for the login
 * worker). The `...AsWritten` functions model that; the workers and the
 * rest of the model use the corrected behaviour, with `page` bound to
 * `None` before the `try`.
 */
module Actions {
  import opened Wrappers
  import opened Retry
  import opened Reports
  import opened Accounts
  import Workflow

  type Action = Option<Exception>

  const DefaultAccountName: string := "default_account"

  /**
   * `get_accounts_to_process`: the accounts of the JSON file when there
   * are any, else the single account of the `.env` credentials when both
   * are given, else none.
   */
  function GetAccountsToProcess(fromFile: seq<Account>, username: Option<string>, password: Option<string>)
      : (accounts: seq<Account>)
    ensures fromFile != [] ==> accounts == fromFile
    ensures fromFile == [] ==> (accounts != [] <==> Given(username) && Given(password))
    ensures fromFile == [] && accounts != [] ==>
      accounts == [Account(DefaultAccountName, username.value, password.value)]
  {
    if fromFile != [] then fromFile
    else if Given(username) && Given(password) then [Account(DefaultAccountName, username.value, password.value)]
    else []
  }

  /**
   * What a worker returns: the workflow's report, or the failure dictionary
   * `{account_name, success: False, error, steps: [], screenshots_taken: []}`
   * of its `except` clause.
   */
  datatype AccountResult =
    | WorkflowReport(report: Report)
    | FailureReport(accountName: string, error: string)

  /** The `UnboundLocalError` raised by reading `page` before it was bound. */
  const UnboundPage: Exception :=
    Exception(UnboundLocal, "cannot access local variable 'page' where it is not associated with a value")

  /**
   * The outcome of the `try`/`except` of `run_copy_trade_for_account`. The
   * `try` fails when `new_page()` raises, or when the report failed and the
   * Telegram notice (sent only with a client and a chat id) raises. The
   * `except` sends a second notice; if that raises it escapes, otherwise the
   * failure report is returned.
   */
  function CopyTradeCorrected(account: Account, newPage: Outcome<nat>, report: Report,
                              telegram: bool, notice: Action, criticalNotice: Action): (r: Outcome<AccountResult>)
    ensures newPage.Returned? && (report.success || !telegram || notice.None?) ==> r == Returned(WorkflowReport(report))
    ensures r.Returned? && r.value.FailureReport? ==> r.value.accountName == account.accountName
    ensures r.Raised? ==> telegram && criticalNotice.Some? && r.error == criticalNotice.value
  {
    var failure := if newPage.Raised? then Some(newPage.error)
                   else if !report.success && telegram && notice.Some? then notice
                   else None;
    match failure
    case None => Returned(WorkflowReport(report))
    case Some(e) =>
      if telegram && criticalNotice.Some? then Raised(criticalNotice.value)
      else Returned(FailureReport(account.accountName, e.message))
  }

  /** `run_copy_trade_for_account` as written: the `finally` clause raises when `new_page()` did. */
  function CopyTradeAsWritten(account: Account, newPage: Outcome<nat>, report: Report,
                              telegram: bool, notice: Action, criticalNotice: Action): (r: Outcome<AccountResult>)
    ensures newPage.Raised? ==> r == Raised(UnboundPage)
    ensures newPage.Returned? ==> r == CopyTradeCorrected(account, newPage, report, telegram, notice, criticalNotice)
  {
    if newPage.Raised? then Raised(UnboundPage) else CopyTradeCorrected(account, newPage, report, telegram, notice, criticalNotice)
  }

  /**
   * As written, a `new_page()` failure never produces the failure report:
   * the worker raises `UnboundLocalError`, which the orchestrator records
   * as the account's entry. Corrected, the failure report carries the
   * original exception's text.
   */
  lemma NewPageFailureEscapes(account: Account, e: Exception, report: Report, telegram: bool, notice: Action)
    ensures CopyTradeAsWritten(account, Raised(e), report, telegram, notice, None) == Raised(UnboundPage)
    ensures CopyTradeCorrected(account, Raised(e), report, telegram, notice, None)
         == Returned(FailureReport(account.accountName, e.message))
  {
  }

  /** `kwargs.get("dry_run", True)`. */
  function DryRunArgument(dryRun: Option<bool>): bool {
    if dryRun.Some? then dryRun.value else true
  }

  /**
   * `run_copy_trade_for_account`, with `page` bound before the `try`: a
   * workflow is built on the new page with the account's storage path, and
   * the page is closed afterwards whenever it was opened.
   */
  method RunCopyTradeForAccount(account: Account, store: StorageSettings, newPage: Outcome<nat>,
                                orderNumber: string, dryRun: bool, skipHistory: bool,
                                obs: Workflow.Observations, jitter: nat -> real,
                                telegram: bool, notice: Action, criticalNotice: Action)
      returns (result: Outcome<AccountResult>, pageClosed: bool)
    requires forall k :: 0.0 <= jitter(k) < 0.1
    ensures var path := StoragePath(store, account.accountName);
      var s := Workflow.WiredSteps(obs, orderNumber, path.Some? && path.value != "");
      result == CopyTradeCorrected(account, newPage,
                                   Workflow.CopyTradeReport(account.username, true, true, newPage, orderNumber,
                                                            dryRun, skipHistory, s),
                                   telegram, notice, criticalNotice)
    ensures pageClosed <==> newPage.Returned?
  {
    var path := StoragePath(store, account.accountName);
    var page: Option<nat> := None;
    var failure: Option<Exception> := None;
    if newPage.Raised? {
      failure := Some(newPage.error);
    } else {
      page := Some(newPage.value);
      var workflow := new Workflow.TtuexWorkflow(account.username, true, path, page);
      var report := workflow.ExecuteCopyTrade(orderNumber, dryRun, skipHistory, newPage,
                                              workflow.Steps(obs, orderNumber), jitter);
      if !report.success && telegram && notice.Some? {
        failure := notice;
      } else {
        result := Returned(WorkflowReport(report));
      }
    }
    if failure.Some? {
      if telegram && criticalNotice.Some? {
        result := Raised(criticalNotice.value);
      } else {
        result := Returned(FailureReport(account.accountName, failure.value.message));
      }
    }
    pageClosed := page.Some?;
  }

  /**
   * The report a copy-trade worker returns names the account by its login
   * username when it comes from the workflow, and by its configured
   * account name when it is the failure report.
   */
  lemma ReportNamesAccount(account: Account, newPage: Outcome<nat>, orderNumber: string, dryRun: bool,
                           skipHistory: bool, s: Workflow.StepCalls,
                           telegram: bool, notice: Action, criticalNotice: Action)
    ensures var r := CopyTradeCorrected(account, newPage,
                                        Workflow.CopyTradeReport(account.username, true, true, newPage, orderNumber,
                                                                 dryRun, skipHistory, s),
                                        telegram, notice, criticalNotice);
      && (r.Returned? && r.value.WorkflowReport? ==> r.value.report.accountName == account.username)
      && (r.Returned? && r.value.FailureReport? ==> r.value.accountName == account.accountName)
  {
  }

  /** `run_login_for_account` as written: there is no `except`, and the `finally` raises when `new_page()` did. */
  function LoginAsWritten(newPage: Outcome<nat>, report: Report): (r: Outcome<Report>)
    ensures newPage.Raised? ==> r == Raised(UnboundPage)
    ensures newPage.Returned? ==> r == Returned(report)
  {
    if newPage.Raised? then Raised(UnboundPage) else Returned(report)
  }

  /** With `page` bound before the `try`, the exception of `new_page()` itself propagates. */
  function LoginCorrected(newPage: Outcome<nat>, report: Report): (r: Outcome<Report>)
    ensures newPage.Raised? ==> r == Raised(newPage.error)
    ensures newPage.Returned? ==> r == Returned(report)
  {
    if newPage.Raised? then Raised(newPage.error) else Returned(report)
  }

  /** As written, the caller sees an `UnboundLocalError` instead of what `new_page()` raised. */
  lemma LoginErrorMasked(e: Exception, report: Report)
    requires e.kind != UnboundLocal
    ensures LoginAsWritten(Raised(e), report) != LoginCorrected(Raised(e), report)
    ensures LoginCorrected(Raised(e), report) == Raised(e)
  {
  }

  /** `run_login_for_account`, with `page` bound before the `try`. */
  method RunLoginForAccount(account: Account, store: StorageSettings, newPage: Outcome<nat>, dryRun: Option<bool>,
                            login: nat -> Workflow.LoginObs, jitter: nat -> real)
      returns (result: Outcome<Report>, pageClosed: bool)
    requires forall k :: 0.0 <= jitter(k) < 0.1
    ensures var path := StoragePath(store, account.accountName);
      var h := path.Some? && path.value != "";
      result == LoginCorrected(newPage,
                               Workflow.LoginReport(account.username, true, true, newPage, DryRunArgument(dryRun),
                                                    (k: nat) => Workflow.LoginStep(login(k), h)))
    ensures pageClosed <==> newPage.Returned?
  {
    var path := StoragePath(store, account.accountName);
    var h := path.Some? && path.value != "";
    var page: Option<nat> := None;
    if newPage.Raised? {
      result := Raised(newPage.error);
    } else {
      page := Some(newPage.value);
      var workflow := new Workflow.TtuexWorkflow(account.username, true, path, page);
      var report := workflow.ExecuteLogin(DryRunArgument(dryRun), newPage, (k: nat) => Workflow.LoginStep(login(k), h), jitter);
      result := Returned(report);
    }
    pageClosed := page.Some?;
  }
}
