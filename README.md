# ttuex-bot decision logic, modelled in Dafny

ttuex-bot logs in to the TTUEX trading site for one or more accounts,
opens the contract page and copy-trading panel, enters an order number,
follows the order and then reads the site's confirmation. A WhatsApp
webhook or the CLI can start a run. This project models the decisions the
bot makes around those browser calls, and proves properties about them:

- **Error classification.** Errors are sorted into permanent and temporary
  by literal keyword matching.
- **Retry.** The `async_retry` decorator bounds the attempts and grows the
  delay geometrically.
- **Two workflow engines.**
  - The radical-fast engine has the rich per-step rules.
  - The plain engine is the one the account workers actually use.

  Both fabricate the dry-run report, run the five live steps fail-fast and
  build the per-account report.
- **The orchestrator.** It clamps the concurrency. It runs one worker per
  account in a browser context that it opens and closes, and gathers the
  results in account order, with exceptions as entries.
- **The error translator.** It turns error text into French explanations.
- **Account selection and storage-state paths.**
- **The Playwright adapter's choices.** These are the launch flags, the
  context options, and the request-blocking predicate.
- **The webhook's `copy <order>` command and its background task.**

The browser is not modelled. An observation datatype stands for what
each Playwright call returned or raised:
- a navigation, a wait, a fill or a click is an `Option<Exception>`;
- page text is an `Outcome<string>`;
- a visible element is a boolean.

A step retried by `async_retry` sees one observation per attempt
(`nat -> Obs`). An exception is its class tag (`PermanentError`,
`TemporaryError`, Playwright's `TimeoutError`, `UnboundLocalError`, or any
other) together with its `str()` text.

Dafny files, one module each:
- Foundations:
  - wrappers.dfy: Option, and the truthiness of an optional setting.
  - text.dfy: ASCII `lower`, substring tests, `strip` and `split` on Python's whitespace, `find`, slices.
  - retry.dfy: exceptions and `async_retry`.
  - reports.dfy: step results, reports, the dry-run step list.
- Classifier and translator: error_classifier.dfy and translators.dfy.
- Workflow engines:
  - radical_steps.dfy: the per-attempt step rules of workflow_radical_fast.py.
  - radical_workflow.dfy: its engine class.
  - workflow.dfy: workflow.py.
- Accounts and orchestration: accounts.dfy, orchestrator.dfy and actions.dfy.
- Adapter and webhook: playwright_adapter.dfy and server.dfy.

Where the code does not do what its own comments and tests expect, the
model follows the code:
- **Retries.** error_classifier.py:11 and :78 say permanent errors should
  not be retried, and tests/test_error_handling.py:33-46 expects one call.
  `async_retry` retries every exception alike (`Retry.PermanentErrorIsRetried`).
- **Escaping exceptions.** actions.py:99-111 catches any exception of the
  copy-trade worker and returns a failure report.
  - The Telegram "critical" notice at actions.py:103 is sent inside that
    `except`, so an exception it raises still escapes the worker.
  - The orchestrator's `gather` at orchestrator.py:73 uses
    `return_exceptions=True`, so an escaping exception becomes that
    account's entry in the results.
  - Before the correction below, a failing `new_page()` also lets an
    `UnboundLocalError` escape.
- **Literal patterns.** The classifier's pattern lists look like regular
  expressions. The code tests them as literal substrings, so entries such
  as `invalid.*credentials` only match the characters `.*` themselves.

## Model

| member | source | states |
|---|---|---|
| Text.Lower | src/ttuex_bot/utils/error_classifier.py:81 | `str.lower()` on ASCII: same length, every character lowered. |
| Text.StripLeft | src/ttuex_bot/server/main.py:90 | The result is a suffix of the input, starts with a non-space, and only whitespace was removed. |
| Text.StripRight | src/ttuex_bot/server/main.py:90 | The result is a prefix of the input, ends with a non-space, and only whitespace was removed. |
| Text.StripTrims | src/ttuex_bot/utils/translators.py:10 | `s.strip()` removes exactly the leading and trailing whitespace: the text is whitespace, then the result, then whitespace, and the result neither starts nor ends with whitespace. |
| Text.Word | src/ttuex_bot/server/main.py:90 | The leading word is a space-free prefix ending at whitespace or at the end. |
| Text.SplitRuns | src/ttuex_bot/server/main.py:90 | `str.split()` yields exactly the maximal runs of non-whitespace, in order: each token is such a run at its start position, the runs do not overlap or touch, and every run of the text is listed. |
| Text.Take | src/ttuex_bot/utils/translators.py:31 | `s[:70]`: the prefix of length min(n, \|s\|). |
| Text.Find | src/ttuex_bot/core/workflow_radical_fast.py:797 | `str.find`: -1 exactly when absent, otherwise the first occurrence. |
| Text.PySliceBounds | src/ttuex_bot/core/workflow_radical_fast.py:797 | Python's slice normalisation. In-range bounds slice directly; a bound past the end counts as the end; a negative bound counts from the end, and one below `-len(s)` as 0; a start at or after the stop gives the empty string. |
| Text.ContainsAnyIff | src/ttuex_bot/playwright_adapter.py:102 | `any(p in text for p in pats)` holds iff some pattern occurs. |
| Retry.AsyncRetry | src/ttuex_bot/utils/retry.py:8-36 | The wrapper's loop yields exactly `Retried`: the result and the number of calls. It sleeps once per raising attempt except the last, and the k-th sleep is `base·factor^k` plus that sleep's jitter. |
| Retry.DelayIsGeometric | src/ttuex_bot/utils/retry.py:20-34 | After n updates `delay` is `base_delay·factor^n`. |
| Retry.Retried | src/ttuex_bot/utils/retry.py:21-27 | With max_attempts ≤ 0 there are no calls and the result is `None`. Otherwise there are 1..max_attempts calls, all but the last raised, and the result is the last call's value or its re-raised exception, the latter only on the final attempt. |
| Retry.FirstReturnWins | src/ttuex_bot/utils/retry.py:22-23 | The first returning call's value is the result, after exactly k+1 calls. |
| Retry.AllRaisedPropagates | src/ttuex_bot/utils/retry.py:25-27 | If every attempt raises, the last exception propagates after max_attempts calls. |
| Retry.PermanentErrorIsRetried | src/ttuex_bot/utils/retry.py:24-34 | A `PermanentError` on the first attempt is retried. |
| Retry.FlakyThenSuccess | src/ttuex_bot/utils/retry.py:21-23 | A function failing twice and then succeeding under max_attempts=3 is called 3 times and returns its value. |
| Retry.NeverRaisingCalledOnce | src/ttuex_bot/utils/retry.py:22-23 | A call that returns at once is made exactly once. |
| Retry.SleepBounds | src/ttuex_bot/utils/retry.py:33 | Every sleep lies in [base·factor^k, base·factor^k + 0.1). |
| ErrorClassifier.FirstMatch | src/ttuex_bot/utils/error_classifier.py:84-91 | The scan returns the first lowercased pattern contained in the text, or reports that none is. |
| ErrorClassifier.ClassifyError | src/ttuex_bot/utils/error_classifier.py:73-94 | Permanent iff some permanent pattern occurs in `str(error).lower()`, otherwise Temporary; the temporary scan never matters. |
| ErrorClassifier.ClassifyIgnoresKind | src/ttuex_bot/utils/error_classifier.py:81 | The classification depends only on the message, not on the exception class. |
| ErrorClassifier.IsPermanentError | src/ttuex_bot/utils/error_classifier.py:97-99 | `is_permanent_error` is the negation of `is_temporary_error`. |
| ErrorClassifier.IsTemporaryError | src/ttuex_bot/utils/error_classifier.py:102-104 | An error is temporary iff no permanent pattern occurs in it. |
| ErrorClassifier.ClassifyAndRaise | src/ttuex_bot/utils/error_classifier.py:107-123 | The raised exception is `PermanentError("Permanent error: "+text)` or `TemporaryError("Temporary error: "+text)`, as `classify_error` decides. |
| ErrorClassifier.IsLoginError | src/ttuex_bot/utils/error_classifier.py:126-138 | On text without `*`, a login error iff the text contains password, credential, login, auth or incorrect; the two `.*` entries never match. |
| ErrorClassifier.IsNetworkError | src/ttuex_bot/utils/error_classifier.py:141-155 | On text without `*`, a network error iff the text contains timeout, net::err_, 502, 503 or 504; the four `.*` entries never match. |
| ErrorClassifier.IsTimeoutError | src/ttuex_bot/utils/error_classifier.py:158-163 | Any timeout error other than a Playwright timeout is also a network error. |
| ErrorClassifier.IsElementNotFoundError | src/ttuex_bot/utils/error_classifier.py:166-175 | Every entry holds `.*`, so no text without `*` is an element-not-found error. |
| ErrorClassifier.PlaywrightTimeoutIsTimeout | src/ttuex_bot/utils/error_classifier.py:160-161 | A Playwright timeout is a timeout error whatever its text. |
| ErrorClassifier.PermanentPatternShape | src/ttuex_bot/utils/error_classifier.py:12-40 | Four permanent patterns are plain words. Every other permanent pattern contains a literal `*`. |
| ErrorClassifier.StarFreePermanentIff | src/ttuex_bot/utils/error_classifier.py:84-86 | For text without `*`, permanent iff it contains forbidden, unauthorized, 401 or 403. |
| ErrorClassifier.PlainPresent | src/ttuex_bot/utils/error_classifier.py:84-86 | An occurrence of one of the four plain patterns makes the error permanent. |
| ErrorClassifier.PlainAbsent | src/ttuex_bot/utils/error_classifier.py:84-94 | Text with no `*` and missing a character of each plain pattern is temporary. |
| ErrorClassifier.PermanentBeatsTemporary | src/ttuex_bot/utils/error_classifier.py:83-91 | Text containing "401" and "timeout" is permanent. |
| ErrorClassifier.UnauthorizedIsPermanent | src/ttuex_bot/utils/error_classifier.py:84-86 | "401 unauthorized" is permanent. |
| ErrorClassifier.InvalidCredentialsIsTemporary | src/ttuex_bot/utils/error_classifier.py:84-94 | "invalid credentials" is temporary under literal matching. |
| ErrorClassifier.UnknownErrorIsTemporary | src/ttuex_bot/utils/error_classifier.py:94 | "some unknown error" is temporary. |
| ErrorClassifier.ClickInterceptedIsTemporary | src/ttuex_bot/utils/error_classifier.py:94 | "element click intercepted" is temporary. |
| ErrorClassifier.BadCredentialsExceptionIsTemporary | src/ttuex_bot/utils/error_classifier.py:81 | A `PermanentError("Bad credentials")` classifies temporary. |
| ErrorClassifier.TimeoutOccurredRaisesTemporary | src/ttuex_bot/utils/error_classifier.py:119-123 | `classify_and_raise("timeout occurred")` raises `TemporaryError("Temporary error: timeout occurred")`. |
| ErrorClassifier.NetworkAbsent | src/ttuex_bot/utils/error_classifier.py:141-155 | Text lacking `*`, `m`, `:` and `5` is not a network error. |
| ErrorClassifier.ConnectionResetMissed | src/ttuex_bot/utils/error_classifier.py:144-155 | "connection reset" is not a network error under literal matching. |
| ErrorClassifier.NetworkErrorMissed | src/ttuex_bot/utils/error_classifier.py:144-155 | "network error" is not a network error under literal matching. |
| ErrorClassifier.EmbeddingKeepsPermanent | src/ttuex_bot/utils/error_classifier.py:84-86 | A permanent text stays permanent inside any longer message. |
| Translators.UnlistedText | src/ttuex_bot/utils/translators.py:31 | The fallback message embeds the first 70 characters of the text. |
| Translators.Unwrapped | src/ttuex_bot/utils/translators.py:9-11 | Removing the "unexpected error:" prefix ends with text that no longer starts with it. The text is unchanged iff it did not start with it, and it only gets shorter. |
| Translators.TranslateError | src/ttuex_bot/utils/translators.py:1-31 | An unmatched text's reply contains the first 70 characters of its unwrapped form. |
| Translators.FirstRule | src/ttuex_bot/utils/translators.py:13-31 | The chosen rule fires and no earlier rule fires. |
| Translators.Explain | src/ttuex_bot/utils/translators.py:6-31 | The recursive unwrapping amounts to one run of the keyword tests on the lower-cased, fully unwrapped text. |
| Translators.KeywordTestsByTable | src/ttuex_bot/utils/translators.py:13-31 | The chain of keyword tests is the ordered rule table, first match wins. |
| Translators.TableFires | src/ttuex_bot/utils/translators.py:13-27 | The rule order and each rule's keyword test, in the source's order. |
| Translators.UnwrapRetranslates | src/ttuex_bot/utils/translators.py:9-11 | A prefixed text translates as its stripped remainder, which is shorter. |
| Translators.PermanentFamily | src/ttuex_bot/utils/translators.py:17-20 | "permanent error" gives the credentials message iff "incorrect credentials" also occurs, else the generic permanent message. |
| Translators.ExistMeansAlreadyCopied | src/ttuex_bot/utils/translators.py:21-22 | Once the earlier rules miss, the "already copied" message is given iff "exist" occurs. |
| Translators.OrderAlreadyExistsIsRedundant | src/ttuex_bot/utils/translators.py:21 | "order already exists" implies "exist", so the first disjunct never decides. |
| Translators.ExplainIgnoresCase | src/ttuex_bot/utils/translators.py:6 | Texts equal up to case get the same explanation. |
| Translators.NotExistExample | src/ttuex_bot/utils/translators.py:21-22 | "Order does not exist" counts as already copied. |
| Reports.DryRunSteps | src/ttuex_bot/core/workflow_radical_fast.py:138-146 | The five pipeline steps, plus a second follow-up iff history verification is not skipped. All are successful and simulated, and the order step carries the order number. |
| Reports.DryRunReport | src/ttuex_bot/core/workflow_radical_fast.py:135-150 | A dry run succeeds with 5 or 6 simulated steps, no error, and the order number and account name. |
| RadicalSteps.TimeoutCaught | src/ttuex_bot/core/workflow_radical_fast.py:466-472 | A timeout handler raises a `TemporaryError` with its message for a Playwright timeout, and always a classified error. |
| RadicalSteps.UnexpectedCaught | src/ttuex_bot/core/workflow_radical_fast.py:473-486 | The generic handler raises a permanent or temporary error wrapping the lead and the message. A permanent, non-network, non-timeout cause stays permanent. |
| RadicalSteps.UnexpectedKeepsTemporary | src/ttuex_bot/core/workflow_radical_fast.py:477-486 | Off the login page, a temporary cause gives `TemporaryError(lead + message)`. |
| RadicalSteps.Caught | src/ttuex_bot/core/workflow_radical_fast.py:450-486 | A returned body passes through. A raised one is returned as a failure iff it is a `PermanentError` and the step has a permanent handler; otherwise it leaves as a classified error. |
| RadicalSteps.ContractBody | src/ttuex_bot/core/workflow_radical_fast.py:417-449 | A returning contract step body reports success. |
| RadicalSteps.ContractAttempt | src/ttuex_bot/core/workflow_radical_fast.py:409-500 | An attempt returns success iff the navigation completed and the marker showed. A returned result is labelled with the step, and a raised exception is one of the two tags. |
| RadicalSteps.ContractMarkerAbsent | src/ttuex_bot/core/workflow_radical_fast.py:433-450 | With the marker absent: a login URL, or content with "error" or "not found", gives a returned failure; otherwise a retried temporary error. |
| RadicalSteps.CopyTradingBody | src/ttuex_bot/core/workflow_radical_fast.py:515-540 | The body returns iff the click succeeded, and then reports success. |
| RadicalSteps.CopyTradingAttempt | src/ttuex_bot/core/workflow_radical_fast.py:503-593 | An attempt returns success iff the button was clicked. A returned result is labelled with the step, and a raised exception is one of the two tags. |
| RadicalSteps.CopyTradingNotClicked | src/ttuex_bot/core/workflow_radical_fast.py:522-558 | Without a click, the step returns (as a failure) iff redirected to login or the button is absent. |
| RadicalSteps.OrderBody | src/ttuex_bot/core/workflow_radical_fast.py:608-638 | The body returns iff the input was visible and the fill succeeded, with the order number. |
| RadicalSteps.OrderAttempt | src/ttuex_bot/core/workflow_radical_fast.py:595-659 | The step returns success iff the input was visible and filled; otherwise it raises a classified error (it has no permanent handler). |
| RadicalSteps.OrderInputMissingIsDowngraded | src/ttuex_bot/core/workflow_radical_fast.py:627-659 | A missing input's `PermanentError` is re-raised by the generic handler as temporary. |
| RadicalSteps.ClickFollowOrderButton | src/ttuex_bot/core/workflow_radical_fast.py:688-707 | The click loop makes max(1, configured) attempts and always ends with `click_success` true. |
| RadicalSteps.ModalVerdict | src/ttuex_bot/core/workflow_radical_fast.py:728-749 | The modal either returns success with "Success: <text>" or raises a `PermanentError`. |
| RadicalSteps.ToastVerdict | src/ttuex_bot/core/workflow_radical_fast.py:770-786 | The toast returns success iff a success word occurs, with the toast text. |
| RadicalSteps.ContentScan | src/ttuex_bot/core/workflow_radical_fast.py:793-814 | The content scan returns success, or raises a `PermanentError` exactly for content containing "duplicate". |
| RadicalSteps.DuplicateExcerpt | src/ttuex_bot/core/workflow_radical_fast.py:797 | The excerpt has at most 100 characters. When "duplicate" is first found at position 50 or later, it is the text from 50 before to 50 after. When it is found earlier, or `find` on the page as written gives -1 because the word appears only capitalised, a page of 100 characters or more gives an empty excerpt. |
| RadicalSteps.FollowUpBody | src/ttuex_bot/core/workflow_radical_fast.py:670-837 | A returning follow-up body reports success. |
| RadicalSteps.FollowUpAttempt | src/ttuex_bot/core/workflow_radical_fast.py:662-862 | A successful attempt had a visible follow button and a successful click. A returned result is labelled with the step, and a raised exception is one of the two tags. |
| RadicalSteps.ModalSuccess | src/ttuex_bot/core/workflow_radical_fast.py:740-743 | A success modal returns "Success: <stripped text>". |
| RadicalSteps.ModalFailureSwallowed | src/ttuex_bot/core/workflow_radical_fast.py:731-753 | A failing modal verdict is swallowed: the step behaves as if there were no modal. |
| RadicalSteps.ToastDecides | src/ttuex_bot/core/workflow_radical_fast.py:765-787 | A success toast decides the step. Any other toast is swallowed and the step behaves as if there were no toast. |
| RadicalSteps.ContentScanDecides | src/ttuex_bot/core/workflow_radical_fast.py:793-842 | After modal and toast fall through, the step returns. It fails iff the content contains "duplicate", and that failure carries "Permanent error during follow-up: …". |
| RadicalSteps.FollowUpFailureIsDuplicate | src/ttuex_bot/core/workflow_radical_fast.py:795-842 | A returned follow-up failure means the button was visible and the page showed "duplicate" (or reading it raised permanently). |
| RadicalSteps.ButtonMissingIsRetried | src/ttuex_bot/core/workflow_radical_fast.py:680-685 | An invisible follow button raises, so the attempt is retried. |
| RadicalSteps.Probe | src/ttuex_bot/core/workflow_radical_fast.py:222-253 | A cached-session result is given iff the probe navigation worked and the marker showed. A raising probe is classified. |
| RadicalSteps.LoginBody | src/ttuex_bot/core/workflow_radical_fast.py:217-352 | A returning login body reports a successful login step. |
| RadicalSteps.LoginAttempt | src/ttuex_bot/core/workflow_radical_fast.py:212-406 | A successful attempt either reused a stored session (storage path and file, working probe, visible marker) or went through the form: navigation, the form, both fills and the submit completed and the marker showed. A returned result is labelled login, and a raised exception is one of the two tags. |
| RadicalSteps.FormMissing | src/ttuex_bot/core/workflow_radical_fast.py:271-283 | A missing form gives a `PermanentError` only when the page shows an error word, or when reading the page raised it; only a raising read escapes unclassified. |
| RadicalSteps.RedirectStalled | src/ttuex_bot/core/workflow_radical_fast.py:309-325 | A stalled redirect is ignored iff the page was read, shows no credential error and is not the login page. A credential error gives "Login failed - likely incorrect credentials…" as a `PermanentError`; only a raising read escapes unclassified. |
| RadicalSteps.MarkerMissing | src/ttuex_bot/core/workflow_radical_fast.py:330-339 | Once the page is read, a missing marker gives a `PermanentError` iff the page shows a credential error, else a `TemporaryError`; a raising read is passed on. |
| RadicalSteps.LoginUnexpected | src/ttuex_bot/core/workflow_radical_fast.py:376-406 | The generic login handler always raises a classified error. |
| RadicalSteps.LoginCaught | src/ttuex_bot/core/workflow_radical_fast.py:354-406 | Only a `PermanentError` becomes a returned failure "Permanent error during login: …"; everything else leaves classified. |
| RadicalSteps.CachedSession | src/ttuex_bot/core/workflow_radical_fast.py:222-238 | A storage file with a working probe and visible marker gives the cached success. |
| RadicalSteps.ProbeFallsThrough | src/ttuex_bot/core/workflow_radical_fast.py:236-253 | A probe that fails without a timeout or login error falls through to the full login. |
| RadicalSteps.ProbeTimeout | src/ttuex_bot/core/workflow_radical_fast.py:241-246 | A probe timeout goes through `classify_and_raise`: a returned failure if permanent, a retried error if temporary. (also lines 354-364) |
| RadicalSteps.NotOnLoginPageIsRetried | src/ttuex_bot/core/workflow_radical_fast.py:271-283 | A missing form off the login page raises, so the attempt is retried. This covers the title test returning false, and also raising with anything but a `PermanentError` (the `AttributeError` of the non-awaited `page.title()`). |
| RadicalSteps.StalledWithCredentialError | src/ttuex_bot/core/workflow_radical_fast.py:304-364 | A stalled redirect with a credential word in the page gives the returned permanent login failure. |
| RadicalSteps.StalledRedirectIgnored | src/ttuex_bot/core/workflow_radical_fast.py:309-325 | A stalled redirect off the login page is ignored. |
| RadicalWorkflow.LoginCallsBehave | src/ttuex_bot/core/workflow_radical_fast.py:211-406 | Every login attempt returns a login result or raises a classified error. |
| RadicalWorkflow.ContractCallsBehave | src/ttuex_bot/core/workflow_radical_fast.py:408-500 | Every contract attempt returns a contract result or raises a classified error. |
| RadicalWorkflow.CopyTradingCallsBehave | src/ttuex_bot/core/workflow_radical_fast.py:502-593 | Every copy-trading attempt returns its result or raises a classified error. |
| RadicalWorkflow.FollowUpCallsBehave | src/ttuex_bot/core/workflow_radical_fast.py:661-862 | Every follow-up attempt returns its result or raises a classified error. |
| RadicalWorkflow.WiredStepsBehave | src/ttuex_bot/core/workflow_radical_fast.py:161-167 | The five wired steps all behave so. |
| RadicalWorkflow.EngineErrorPrefix | src/ttuex_bot/core/workflow_radical_fast.py:181-187 | An escaping exception is written "Permanent error: …" iff it is a `PermanentError`, else "Unexpected error: …". |
| RadicalWorkflow.Wrapped | src/ttuex_bot/core/workflow_radical_fast.py:211 | The `max_attempts=3` wrapper returns the first returning attempt, and raises the third exception iff all three raise. (also lines 408, 502, 661) |
| RadicalWorkflow.ThreeAttempts | src/ttuex_bot/core/workflow_radical_fast.py:211 | A wrapped step is called 1 to 3 times. |
| RadicalWorkflow.LiveOutcomes | src/ttuex_bot/core/workflow_radical_fast.py:161-167 | Five outcomes, each the wrapped step (the order step unwrapped), each labelled with its pipeline step. (also lines 595) |
| RadicalWorkflow.FailFast | src/ttuex_bot/core/workflow_radical_fast.py:170-187 | Results are appended in order up to the first failure or exception. Success holds iff all five returned success, the raising step is not listed, and its error is tagged. |
| RadicalWorkflow.FailFastStep | src/ttuex_bot/core/workflow_radical_fast.py:170-176 | One successful step moves from the pending outcomes to the appended steps. |
| RadicalWorkflow.PageAfter | src/ttuex_bot/core/workflow_radical_fast.py:157-158 | A page is kept if present, otherwise set exactly when one is opened and `new_page()` returned. |
| RadicalWorkflow.CopyTradeReport | src/ttuex_bot/core/workflow_radical_fast.py:103-207 | The report names the workflow username, the order number and the dry-run flag, and is always timed. |
| RadicalWorkflow.LoginReport | src/ttuex_bot/core/workflow_radical_fast.py:45-101 | The login report names the username and dry-run flag and carries no order number. |
| RadicalWorkflow.TtuexWorkflow.constructor | src/ttuex_bot/core/workflow_radical_fast.py:30-43 | The workflow keeps the username, context, storage path and page it was given. |
| RadicalWorkflow.TtuexWorkflow.EnsurePage | src/ttuex_bot/core/workflow_radical_fast.py:157-158 | A missing page is opened lazily; a `new_page()` failure is returned. |
| RadicalWorkflow.TtuexWorkflow.RunLiveStep | src/ttuex_bot/core/workflow_radical_fast.py:171 | Running step i through the retry wrapper yields exactly that step's outcome. |
| RadicalWorkflow.TtuexWorkflow.RunPipeline | src/ttuex_bot/core/workflow_radical_fast.py:161-179 | The step loop's run is `FailFast` of the five outcomes. |
| RadicalWorkflow.TtuexWorkflow.ExecuteCopyTrade | src/ttuex_bot/core/workflow_radical_fast.py:103-207 | The method's report is `CopyTradeReport` and its new page is `PageAfter`. |
| RadicalWorkflow.TtuexWorkflow.ExecuteLogin | src/ttuex_bot/core/workflow_radical_fast.py:45-101 | The method's report is `LoginReport` and its new page is `PageAfter`. |
| RadicalWorkflow.LiveSuccessIsFiveSteps | src/ttuex_bot/core/workflow_radical_fast.py:170-179 | A live run succeeds iff all five steps return success, and then lists all five in order. |
| RadicalWorkflow.LiveStepsFollowPipeline | src/ttuex_bot/core/workflow_radical_fast.py:170-176 | The listed steps are a pipeline prefix and all but the last succeeded. |
| RadicalWorkflow.LiveFailureShape | src/ttuex_bot/core/workflow_radical_fast.py:170-187 | A failed live run ends with a failed listed step and no error. Otherwise it has a tagged error and every listed step succeeded. |
| RadicalWorkflow.StepErrorIsTagged | src/ttuex_bot/core/workflow_radical_fast.py:181-187 | Any error of a wired live run starts with "Permanent error: " or "Unexpected error: ". |
| RadicalWorkflow.NoContextLiveRun | src/ttuex_bot/core/workflow_radical_fast.py:154-182 | Without a context a live run has no steps and fails with a permanent error, independent of page and steps. |
| RadicalWorkflow.DryRunNeedsContextOnlyForLogin | src/ttuex_bot/core/workflow_radical_fast.py:59-60 | A dry copy trade succeeds without a context. A dry login without one fails with a permanent error. (also lines 135-150) |
| RadicalWorkflow.LoginUntimedIffStepFailed | src/ttuex_bot/core/workflow_radical_fast.py:67-101 | The login report lacks its timing keys iff the login step returned a failure (the early return). |
| RadicalWorkflow.FirstFailureRetried | src/ttuex_bot/core/workflow_radical_fast.py:211 | A first attempt's exception, even a `PermanentError`, is retried. |
| Workflow.FirstError | src/ttuex_bot/core/workflow.py:194-267 | The first raising call of a step is found, or none raised. |
| Workflow.FirstErrorAt | src/ttuex_bot/core/workflow.py:194-267 | A call that raises after only non-raising calls is the first error. |
| Workflow.WaitForRedirect | src/ttuex_bot/core/workflow.py:246-249 | The wait succeeds iff some visited URL no longer contains "/login-page"; otherwise it times out. |
| Workflow.LoginStep | src/ttuex_bot/core/workflow.py:188-288 | The login step is labelled login and succeeds iff the cached probe worked or every call returned. A failure always carries an error. |
| Workflow.CachedSession | src/ttuex_bot/core/workflow.py:196-210 | A storage file with a working probe gives the cached success, and only with a storage path. |
| Workflow.ProbeFailureFallsThrough | src/ttuex_bot/core/workflow.py:211-214 | Any probe failure falls through to the full login, as if there were no storage file. |
| Workflow.StalledRedirectFails | src/ttuex_bot/core/workflow.py:246-278 | Staying on "/login-page" fails with "Timeout during login step: …". |
| Workflow.ContractStep | src/ttuex_bot/core/workflow.py:290-330 | The contract step succeeds iff navigation and marker wait worked, else "Error navigating to contract page: …". |
| Workflow.CopyTradingStep | src/ttuex_bot/core/workflow.py:332-367 | The copy-trading step succeeds iff wait, scroll and click worked, else fails with the first error. |
| Workflow.OrderStep | src/ttuex_bot/core/workflow.py:369-392 | The order step succeeds iff the fill worked, carrying the order number, else fails with the fill's error. |
| Workflow.FollowUpStep | src/ttuex_bot/core/workflow.py:394-430 | A successful follow-up carries a confirming toast; a failure carries an error. |
| Workflow.ToastDecides | src/ttuex_bot/core/workflow.py:409-422 | Once the toast is read, the step succeeds iff it contains "succesfully followed" or "suivi r√©ussi". Otherwise it fails with "Follow-up failed with message: …". |
| Workflow.FollowUpTimeout | src/ttuex_bot/core/workflow.py:424-427 | A Playwright timeout gives the fixed timeout message. |
| Workflow.CorrectSpellingNotConfirmed | src/ttuex_bot/core/workflow.py:415 | "Successfully followed" is not a confirmation. |
| Workflow.CorrectEncodingNotConfirmed | src/ttuex_bot/core/workflow.py:415 | "suivi réussi" (correctly encoded) is not a confirmation. |
| Workflow.UnconfirmedToastFails | src/ttuex_bot/core/workflow.py:415-422 | A toast without surrounding whitespace that matches neither phrase makes the follow-up step fail. |
| Workflow.CorrectToastsFail | src/ttuex_bot/core/workflow.py:415-422 | Both correctly written toasts make the follow-up step fail. |
| Workflow.WiredStepsLabelled | src/ttuex_bot/core/workflow.py:146-152 | Every wired step result is labelled with its step. |
| Workflow.LiveResults | src/ttuex_bot/core/workflow.py:146-152 | Five results, labelled in pipeline order. |
| Workflow.FailFast | src/ttuex_bot/core/workflow.py:155-165 | The steps are a prefix of the results. Success holds iff all succeeded; otherwise the failed step is listed last and the error is "Step '<step>' failed: <error>". |
| Workflow.FailFastStep | src/ttuex_bot/core/workflow.py:155-158 | One successful step moves from the pending results to the appended steps. |
| Workflow.CopyTradeReport | src/ttuex_bot/core/workflow.py:88-184 | The report names the username, the order number and the dry-run flag, and is always timed. |
| Workflow.LoginReport | src/ttuex_bot/core/workflow.py:36-86 | The login report is always timed, has no order number, and succeeds iff it has no error. |
| Workflow.TtuexWorkflow.constructor | src/ttuex_bot/core/workflow.py:21-34 | The workflow keeps the username, context, storage path and page it was given. |
| Workflow.TtuexWorkflow.EnsurePage | src/ttuex_bot/core/workflow.py:142-143 | A missing page is opened lazily; a `new_page()` failure is returned. |
| Workflow.TtuexWorkflow.RunStep | src/ttuex_bot/core/workflow.py:156-188 | Through the `max_attempts=2` wrapper each step body runs exactly once and yields its result. |
| Workflow.TtuexWorkflow.RunPipeline | src/ttuex_bot/core/workflow.py:155-161 | The step loop's run is `FailFast` of the five results. |
| Workflow.TtuexWorkflow.ExecuteCopyTrade | src/ttuex_bot/core/workflow.py:88-184 | The method's report is `CopyTradeReport` and its new page is `PageAfter`. |
| Workflow.TtuexWorkflow.ExecuteLogin | src/ttuex_bot/core/workflow.py:36-86 | The method's report is `LoginReport` and its new page is `PageAfter`. |
| Workflow.LiveSuccessIsFiveSteps | src/ttuex_bot/core/workflow.py:155-161 | A live run succeeds iff all five steps succeed, and then lists all five in order. |
| Workflow.StepFailureReported | src/ttuex_bot/core/workflow.py:155-165 | A failed live run lists the failed step last after successes, with error "Step '<step>' failed: <error>". |
| Workflow.NoContextLiveRun | src/ttuex_bot/core/workflow.py:139-165 | Without a context there are no steps and the error is "BrowserContext not provided for live run.". |
| Workflow.DryRunMatchesRadical | src/ttuex_bot/core/workflow.py:120-135 | The dry-run report equals the radical engine's and succeeds. |
| Workflow.LoginFailureReported | src/ttuex_bot/core/workflow.py:56-84 | A failed login lists its result, is timed, and has error "Step 'login' failed: <error>". |
| Workflow.WiredLoginFailure | src/ttuex_bot/core/workflow.py:194-288 | Without a cached session, a raising login call fails the login report. |
| Accounts.Join | src/ttuex_bot/orchestrator.py:49-51 | `os.path.join`: an absolute second part replaces the first. Otherwise the second part is appended, with one separator when needed. |
| Accounts.StoragePath | src/ttuex_bot/orchestrator.py:47-51 | A path exists iff storage state is enabled, and it ends with `<account_name>.json`. |
| Accounts.StoragePathLayout | src/ttuex_bot/actions.py:40-44 | The path is `<cwd>/<storage_state_dir>/<account_name>.json`. |
| Accounts.AbsoluteNameEscapesDir | src/ttuex_bot/actions.py:76-80 | An account name with a leading slash leaves the storage directory. |
| Orchestrator.Clamp | src/ttuex_bot/orchestrator.py:39 | The limit lies in 1..10, values in range are unchanged, 0/None/low gives 1, and high gives 10. |
| Orchestrator.ClampExamples | src/ttuex_bot/orchestrator.py:39 | 0 and None give 1, 50 gives 10, and -3 gives 1. |
| Orchestrator.WorkerResult | src/ttuex_bot/orchestrator.py:43-67 | A worker returns only when context creation, run and close all worked. A creation failure is its result. |
| Orchestrator.Lifecycle | src/ttuex_bot/orchestrator.py:45-67 | The context events mention only the first n accounts. |
| Orchestrator.Worker | src/ttuex_bot/orchestrator.py:43-67 | The worker's result and context events are `WorkerResult` and `WorkerEvents`. |
| Orchestrator.OrchestrateAccounts | src/ttuex_bot/orchestrator.py:36-74 | No accounts gives [] with no contexts. Otherwise there is one result per account, in order, each that account's worker result (exceptions as entries), with the events of `Lifecycle`. |
| Orchestrator.ContextsPaired | src/ttuex_bot/orchestrator.py:45-67 | An account's context is opened, with its storage path, iff creation succeeded, and then also closed. |
| Actions.GetAccountsToProcess | src/ttuex_bot/actions.py:18-32 | A non-empty JSON list is returned unchanged. Otherwise the result is exactly one "default_account" iff both credentials are set, else []. |
| Actions.CopyTradeCorrected | src/ttuex_bot/actions.py:82-111 | The workflow report is returned unless `new_page()` or the failure notice raised. A failure report names the configured account; only the critical notice's exception escapes. |
| Actions.CopyTradeAsWritten | src/ttuex_bot/actions.py:82-114 | As written, a raising `new_page()` ends in `UnboundLocalError`; otherwise it behaves as corrected. |
| Actions.NewPageFailureEscapes | src/ttuex_bot/actions.py:83-114 | The as-written worker raises `UnboundLocalError` where the corrected one returns the failure report with the original text. |
| Actions.RunCopyTradeForAccount | src/ttuex_bot/actions.py:62-114 | The worker's result is `CopyTradeCorrected` of the wired plain-engine report, and the page is closed iff it was opened. |
| Actions.ReportNamesAccount | src/ttuex_bot/actions.py:85-106 | A workflow report names the login username; a failure report names the configured account name. |
| Actions.LoginAsWritten | src/ttuex_bot/actions.py:46-59 | As written, a raising `new_page()` ends in `UnboundLocalError`, else the login report. |
| Actions.LoginCorrected | src/ttuex_bot/actions.py:46-59 | Corrected, `new_page()`'s own exception propagates, else the login report. |
| Actions.LoginErrorMasked | src/ttuex_bot/actions.py:47-59 | As written, the caller sees `UnboundLocalError` instead of the original exception. |
| Actions.RunLoginForAccount | src/ttuex_bot/actions.py:35-59 | The worker's result is `LoginCorrected` of the wired login report, and the page is closed iff it was opened. |
| PlaywrightAdapter.HandleRoute | src/ttuex_bot/playwright_adapter.py:92-105 | Abort iff the resource type is image, font or media, or the lowercased URL contains a tracker host. |
| PlaywrightAdapter.RouteIgnoresUrlCase | src/ttuex_bot/playwright_adapter.py:101-102 | The decision does not depend on the URL's case. |
| PlaywrightAdapter.NewContext | src/ttuex_bot/playwright_adapter.py:67-107 | The device's keys are copied in. `storage_state` is set to the path when one is given and the file exists; otherwise it is the device's own value if the device has one, and absent if not. The route handler is installed iff performant. |
| PlaywrightAdapter.LaunchArgs | src/ttuex_bot/playwright_adapter.py:45-53 | When low-resource mode is on or unset, the configured flags are used, or the default list of src/ttuex_bot/config.py when none are configured; with the mode off, no flags. |
| Server.ParseCommand | src/ttuex_bot/server/main.py:89-92 | Accepted iff there are exactly two tokens and the first is "copy". The order is the second token: non-empty, lowercase, without spaces. |
| Server.WordOf | src/ttuex_bot/server/main.py:90 | A space-free word followed by whitespace is read whole. |
| Server.ParseCommandWords | src/ttuex_bot/server/main.py:89-92 | A body made of optional whitespace, a word, whitespace, a word and optional whitespace is accepted iff the first word lower-cases to "copy", and then the order is the second word lower-cased. |
| Server.SplitWords | src/ttuex_bot/server/main.py:90 | Two space-free words around whitespace split into exactly those two words. |
| Server.MixedCaseCommand | src/ttuex_bot/server/main.py:90-92 | "COPY AbC12" schedules "abc12". |
| Server.BackgroundTasks.AddTask | src/ttuex_bot/server/main.py:98 | The task is appended. |
| Server.ConfirmationReply | src/ttuex_bot/server/main.py:101 | The reply is the fixed lead, the order number and the fixed tail, and is never the invalid-command reply. |
| Server.ConfirmationNamesOrder | src/ttuex_bot/server/main.py:101 | Two orders get the same confirmation iff they are equal. |
| Server.HandleWhatsappWebhook | src/ttuex_bot/server/main.py:68-106 | A missing From or Body gives HTTP 400 and no task. An accepted command schedules exactly one live task and confirms it; any other body only gets the error reply. |
| Server.RunTradeTask | src/ttuex_bot/server/main.py:18-42 | It returns before any browser iff no account is selected. Otherwise all the selected accounts run headless and performant, with history verification and the task's order and dry-run flag. |
| Server.WebhookRunsAreLive | src/ttuex_bot/server/main.py:98 | Every run a webhook command schedules is live, for its order. (also lines 18-42) |

## Left out

- **Browser.** Playwright itself (navigation, locators, waits, fills, clicks, page content, screenshots) is not modelled. Each call is an observation of what it returned or raised. The `WebErrorHandler` helpers of web_utils.py are booleans that never raise, and `handle_common_popups` is not modelled.
- **Concurrency.** asyncio scheduling is not modelled: not the semaphore of orchestrator.py, not `gather` interleaving, not FastAPI's execution of background tasks. The orchestrator's workers run one after the other, in account order.
- **Clocks and randomness.** Timestamps, durations and the minimum-run sleep are not modelled. A report only records whether the timing keys were set (`timed`). The sleeps of `async_retry` are the values it would pass to `asyncio.sleep`, with the random jitter given as a parameter in [0, 0.1).
- **I/O.** The following are not modelled:
  - configuration loading (config.py);
  - `os.makedirs`;
  - `Path(...).exists()`, which is given as an observation;
  - the debug-HTML writes;
  - the `storage_state` file writes;
  - logging.
- **Path text.** `str(Path(p))` normalisation of the storage path in `new_context` is not modelled. The option holds the path as given.
- **Unmodelled failures.** `browser.new_context` raising inside `new_context`, `set_default_timeout` failures and `page.close()` failures are not modelled.
- **Interfaces.** The CLI (cli.py), the Telegram bot (telegram_bot.py) and the Kivy UI are not part of this model. The text of the Telegram notices in actions.py is not modelled: only whether each send raised.
- **Webhook.** The TwiML XML of the reply is left out; only the message text is kept. The `/health` endpoint and `run_trade_task`'s own exception logging are left out.
- **Case folding.** Only ASCII letters are lowered; `str.lower()` on other letters is not modelled. Whitespace for `str.strip()` and `str.split()` is Python's full `str.isspace()` set.
- **`should_retry_exception`.** workflow_radical_fast.py imports it, but utils/retry.py does not define it. Nothing the model covers calls it.
- **Radical click loop.** `RadicalSteps.ClickFollowOrderButton` models the follow-up click loop once, as its own method. Each follow-up attempt is modelled as starting after the `if click_success` check, which always passes.
- **Radical `page.title()`.** It is called without `await` at workflow_radical_fast.py:273 and :320, so in the source `.lower()` is applied to a coroutine and always raises `AttributeError`; that branch never yields a boolean. The model keeps the observation general, a boolean or an exception, so it also covers the evidently intended awaited call. `RadicalSteps.NotOnLoginPageIsRetried` covers the raising case.
- **Jitter.** One `jitter` function serves all retry wrappers of a run. It is not a fresh random value per wrapper.
- **`UnboundPage` text.** The message of `Actions.UnboundPage` is the Python 3.11+ wording of `UnboundLocalError`; older interpreters word it differently.
- **Tests that disagree with the code.** These assertions are non-properties of the code:
  - test_error_handling.py:37-46: a `PermanentError` is not retried (`Retry.PermanentErrorIsRetried` proves the opposite);
  - test_error_handling.py:89, 99 and 165: "invalid credentials" is permanent (`ErrorClassifier.InvalidCredentialsIsTemporary`);
  - test_error_handling.py:154-155: "connection reset" and "network error" are network errors (`ErrorClassifier.ConnectionResetMissed` and `ErrorClassifier.NetworkErrorMissed` prove neither is);
  - test_telegram_bot.py: it asserts strings that telegram_bot.py does not produce.
- **Misspelled confirmations.** The plain engine's toast check (workflow.py:415) looks for a misspelled phrase ("succesfully followed") and for mis-encoded text ("suivi r√©ussi"). The model keeps both as written. `Workflow.CorrectToastsFail` proves that the correctly written confirmations fail the step. This is not listed as a finding: what the site actually displays is not part of this model.

## Findings

| source | as written | input that shows it | evidently intended | confidence | as-written member | corrected member |
|---|---|---|---|---|---|---|
| src/ttuex_bot/actions.py:82-83,112-114 | `page` is first bound inside the `try` by `page = await context.new_page()`. The `finally` reads it. | `context.new_page()` raises any exception `e`: the `finally` raises `UnboundLocalError`, `e` and the failure report are lost, and the orchestrator records the `UnboundLocalError`. | `page = None` before the `try`: the failure report `{account_name, success: False, error: str(e), …}` is returned. | not executed | Actions.NewPageFailureEscapes | Actions.CopyTradeCorrected |
| src/ttuex_bot/actions.py:46-47,56-59 | `page` is first bound inside the `try` by `page = await context.new_page()`. The `finally` reads it. | `context.new_page()` raises an exception `e` other than `UnboundLocalError`: the caller sees `UnboundLocalError` instead of `e`. | `page = None` before the `try`: `e` propagates. | not executed | Actions.LoginErrorMasked | Actions.LoginCorrected |
