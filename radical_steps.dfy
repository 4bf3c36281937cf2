/**
 * The per-attempt rules of core/workflow_radical_fast.py: how one attempt
 * of each step turns what the browser showed into a returned result or a
 * raised exception.
 *
 * Every browser call is an observation. An `Action` is a call that either
 * completes (`None`) or raises (`Some(e)`). A value-producing call is an
 * `Outcome`. `wait_for_element_safe`, `click_element_safe` and
 * `handle_common_popups` never raise, so they are plain booleans (or are
 * left out). Each attempt is modelled in two parts: `…Body` is the `try`
 * block, and `…Attempt` adds the step's `except` clauses. An exception
 * raised inside one `except` clause is not caught by the clauses beside
 * it. It is caught by the handlers of an enclosing `try`, if there is one.
 */
module RadicalSteps {
  import opened Text
  import opened Retry
  import opened Wrappers
  import opened ErrorClassifier
  import opened Reports

  /** A browser call without a value: `None` if it completed, else what it raised. */
  type Action = Option<Exception>

  function Perm(message: string): Exception { Exception(PermanentError, message) }
  function Temp(message: string): Exception { Exception(TemporaryError, message) }

  /** `any(w in url.lower() for w in ["/login", "login-page"])`. */
  predicate RedirectedToLogin(url: string) {
    Contains(Lower(url), "/login") || Contains(Lower(url), "login-page")
  }

  /** An exception that is one of the two tags the retry module defines. */
  predicate Classified(e: Exception) {
    e.kind == PermanentError || e.kind == TemporaryError
  }

  /**
   * The `except PlaywrightTimeoutError` clause shared by the navigation,
   * order-number and follow-up steps. `is_timeout_error` holds for every
   * Playwright timeout, so the `classify_and_raise` branch is never taken.
   */
  function TimeoutCaught(msg: string, e: Exception): (r: Exception)
    ensures e.kind == PlaywrightTimeout ==> r == Temp(msg)
    ensures Classified(r)
  {
    if IsTimeoutError(Error(e)) then Temp(msg) else ClassifyAndRaise(Message(msg))
  }

  /**
   * The `except Exception` clause shared by the navigation, order-number
   * and follow-up steps; its message is the step's `lead` followed by
   * `str(e)`. It raises a `TemporaryError` carrying that message, or a
   * `PermanentError` carrying it with or without "Permanent error: " in
   * front. An error that classifies Permanent, and that is not a network or
   * timeout error, stays Permanent.
   */
  function UnexpectedCaught(lead: string, e: Exception, url: string): (r: Exception)
    ensures Classified(r)
    ensures r.kind == TemporaryError ==> r.message == lead + e.message
    ensures r.kind == PermanentError ==> r.message == lead + e.message || r.message == PermanentPrefix + (lead + e.message)
    ensures !IsNetworkError(Error(e)) && !IsTimeoutError(Error(e)) && IsPermanentError(Error(e)) ==> r.kind == PermanentError
  {
    var msg := lead + e.message;
    if IsNetworkError(Error(e)) || IsTimeoutError(Error(e)) then Temp(msg)
    else if Contains(Lower(url), "login") || Contains(Lower(url), "/login") then Perm(msg)
    else if IsPermanentError(Error(e)) then
      EmbeddingKeepsPermanent(lead, e.message);
      ClassifyAndRaise(Message(msg))
    else Temp(msg)
  }

  /**
   * An error that classifies Temporary, on a page whose URL does not
   * mention "login", comes out as a `TemporaryError` with the lead in front.
   */
  lemma UnexpectedKeepsTemporary(lead: string, e: Exception, url: string)
    requires !Contains(Lower(url), "login") && IsTemporaryError(Error(e))
    ensures UnexpectedCaught(lead, e, url) == Temp(lead + e.message)
  {
    SlashLoginHasLogin(Lower(url));
  }

  lemma SlashLoginHasLogin(s: string)
    ensures Contains(s, "/login") ==> Contains(s, "login")
  {
    if Contains(s, "/login") {
      assert OccursAt("/login", "login", 1);
      ContainsTrans(s, "/login", "login");
    }
  }

  /**
   * The `except` clauses of a navigation, order-number or follow-up step:
   * the `except PermanentError` lead (absent for the order-number step),
   * the `except PlaywrightTimeoutError` lead and whether `str(e)` follows
   * it, and the `except Exception` lead.
   */
  datatype Clauses = Clauses(
    step: StepName,
    permanentLead: Option<string>,
    timeoutLead: string,
    timeoutKeepsText: bool,
    unexpectedLead: string)

  /**
   * What the `except` clauses make of the `try` block's outcome. A value
   * passes through. A `PermanentError` becomes a returned failure when the
   * step catches it. Everything else is re-raised as one of the two tags.
   */
  function Caught(c: Clauses, body: Outcome<StepResult>, url: string): (r: Outcome<StepResult>)
    ensures body.Returned? ==> r == body
    ensures body.Raised? ==> (r.Returned? <==> body.error.kind == PermanentError && c.permanentLead.Some?)
    ensures body.Raised? && r.Returned? ==> r.value == Failed(c.step, c.permanentLead.value + body.error.message)
    ensures r.Raised? ==> Classified(r.error)
  {
    match body
    case Returned(_) => body
    case Raised(e) =>
      if e.kind == PermanentError && c.permanentLead.Some? then
        Returned(Failed(c.step, c.permanentLead.value + e.message))
      else if e.kind == PlaywrightTimeout then
        Raised(TimeoutCaught(c.timeoutLead + (if c.timeoutKeepsText then e.message else ""), e))
      else Raised(UnexpectedCaught(c.unexpectedLead, e, url))
  }

  // ---------------------------------------------------------------------
  // navigate_to_contract (lines 408-486)

  const ContractNotLoggedIn: string := "Not logged in when navigating to contract. Redirected to: "
  const ContractPageError: string := "Contract page returned error: "
  const ContractElementsMissing: string := "Contract page elements not found. Current URL: "
  const ContractPermanentLead: string := "Permanent error navigating to contract page: "
  const ContractTimeoutLead: string := "Timeout navigating to contract page: "
  const ContractUnexpectedLead: string := "Error navigating to contract page: "

  datatype ContractObs = ContractObs(
    goto: Action,             // page.goto(contract_url)
    markerVisible: bool,      // the "Liste de commandes" marker showed up
    url: string,              // page.url
    content: Outcome<string>) // page.content()

  function ContractBody(o: ContractObs): (b: Outcome<StepResult>)
    ensures b.Returned? ==> b.value == Succeeded(NavigateToContract)
  {
    if o.goto.Some? then Raised(o.goto.value)
    else if o.markerVisible then Returned(Succeeded(NavigateToContract))
    else match o.content
      case Raised(e) => Raised(e)
      case Returned(c) =>
        if RedirectedToLogin(o.url) then
          Raised(Perm(ContractNotLoggedIn + o.url))
        else if Contains(Lower(c), "error") || Contains(Lower(c), "not found") then
          Raised(Perm(ContractPageError + o.url))
        else Raised(Temp(ContractElementsMissing + o.url))
  }

  const ContractClauses: Clauses := Clauses(NavigateToContract,
    Some(ContractPermanentLead), ContractTimeoutLead, true,
    ContractUnexpectedLead)

  /** One attempt of `_step_navigate_to_contract`. */
  function ContractAttempt(o: ContractObs): (r: Outcome<StepResult>)
    ensures r.Returned? ==> r.value.step == NavigateToContract
    ensures (r.Returned? && r.value.success) <==> o.goto.None? && o.markerVisible
    ensures r.Raised? ==> Classified(r.error)
  {
    Caught(ContractClauses, ContractBody(o), o.url)
  }

  /**
   * With the marker absent, a login redirect or an error page gives a
   * returned failure, which the retry wrapper does not retry. Any other
   * page raises, so the attempt is retried; and the exception is a
   * `TemporaryError` unless the URL mentions "login" or the text
   * classifies Permanent.
   */
  lemma ContractMarkerAbsent(o: ContractObs)
    requires o.goto.None? && !o.markerVisible && o.content.Returned?
    ensures var c := o.content.value;
      if RedirectedToLogin(o.url) then
        ContractAttempt(o) == Returned(Failed(NavigateToContract, ContractPermanentLead
          + (ContractNotLoggedIn + o.url)))
      else if Contains(Lower(c), "error") || Contains(Lower(c), "not found") then
        ContractAttempt(o) == Returned(Failed(NavigateToContract, ContractPermanentLead
          + (ContractPageError + o.url)))
      else
        && ContractAttempt(o).Raised?
        && (var m := ContractElementsMissing + o.url;
            !Contains(Lower(o.url), "login") && IsTemporaryError(Message(m)) ==>
              ContractAttempt(o) == Raised(Temp(ContractUnexpectedLead + m)))
  {
    var c := o.content.value;
    if !RedirectedToLogin(o.url) && !(Contains(Lower(c), "error") || Contains(Lower(c), "not found")) {
      var m := ContractElementsMissing + o.url;
      assert ContractBody(o) == Raised(Temp(m));
      if !Contains(Lower(o.url), "login") && IsTemporaryError(Message(m)) {
        UnexpectedKeepsTemporary(ContractUnexpectedLead, Temp(m), o.url);
      }
    }
  }

  // ---------------------------------------------------------------------
  // navigate_to_copy_trading (lines 502-569)

  const CopyTradingLoggedOut: string := "Logged out when navigating to copy trading. Redirected to: "
  const CopyTradingUnclickable: string := "Copy trading button exists but couldn't be clicked. Current URL: "
  const CopyTradingButtonMissing: string := "Copy trading button not found. UI might have changed. Current URL: "
  const CopyTradingPermanentLead: string := "Permanent error in navigate to copy trading: "
  const CopyTradingTimeoutLead: string := "Timeout in navigate to copy trading: "
  const CopyTradingUnexpectedLead: string := "Error in navigate to copy trading: "

  datatype CopyTradingObs = CopyTradingObs(
    clicked: bool,            // click_element_safe on the copy-trading button
    url: string,
    content: Outcome<string>,
    count: Outcome<nat>)      // element.count()

  function CopyTradingBody(o: CopyTradingObs): (b: Outcome<StepResult>)
    ensures b.Returned? <==> o.clicked
    ensures b.Returned? ==> b.value == Succeeded(NavigateToCopyTrading)
  {
    if o.clicked then Returned(Succeeded(NavigateToCopyTrading))
    else if o.content.Raised? then Raised(o.content.error)
    else if RedirectedToLogin(o.url) then
      Raised(Perm(CopyTradingLoggedOut + o.url))
    else match o.count
      case Raised(e) => Raised(e)
      case Returned(n) =>
        if n > 0 then Raised(Temp(CopyTradingUnclickable + o.url))
        else Raised(Perm(CopyTradingButtonMissing + o.url))
  }

  const CopyTradingClauses: Clauses := Clauses(NavigateToCopyTrading,
    Some(CopyTradingPermanentLead), CopyTradingTimeoutLead, true,
    CopyTradingUnexpectedLead)

  /** One attempt of `_step_navigate_to_copy_trading`. */
  function CopyTradingAttempt(o: CopyTradingObs): (r: Outcome<StepResult>)
    ensures r.Returned? ==> r.value.step == NavigateToCopyTrading
    ensures (r.Returned? && r.value.success) <==> o.clicked
    ensures r.Raised? ==> Classified(r.error)
  {
    Caught(CopyTradingClauses, CopyTradingBody(o), o.url)
  }

  /**
   * A button that could not be clicked: gone from the page (or a login
   * redirect) is a returned failure; present but unclickable raises and is
   * retried.
   */
  lemma CopyTradingNotClicked(o: CopyTradingObs)
    requires !o.clicked && o.content.Returned? && o.count.Returned?
    ensures CopyTradingAttempt(o).Returned? <==> RedirectedToLogin(o.url) || o.count.value == 0
    ensures CopyTradingAttempt(o).Returned? ==> !CopyTradingAttempt(o).value.success
  {
    var b := CopyTradingBody(o);
    assert b.Raised? && (b.error.kind == PermanentError <==> RedirectedToLogin(o.url) || o.count.value == 0);
  }

  // ---------------------------------------------------------------------
  // enter_order_number (lines 595-659): no `except PermanentError` clause

  const OrderLoggedOut: string := "Logged out when entering order number. Redirected to: "
  const OrderInputHidden: string := "Order number input exists but couldn't be found. Current URL: "
  const OrderInputMissing: string := "Order number input not found. UI might have changed. Current URL: "
  const OrderTimeoutLead: string := "Timeout entering order number: "
  const OrderUnexpectedLead: string := "Error entering order number: "

  datatype OrderObs = OrderObs(
    visible: bool,            // wait_for_element_safe on the order-number input
    url: string,
    content: Outcome<string>,
    count: Outcome<nat>,
    fill: Action)

  function OrderBody(o: OrderObs, orderNumber: string): (b: Outcome<StepResult>)
    ensures b.Returned? <==> o.visible && o.fill.None?
    ensures b.Returned? ==> b.value == StepResult(EnterOrderNumber, true, None, false, false, Some(orderNumber), None)
  {
    if !o.visible then
      if o.content.Raised? then Raised(o.content.error)
      else if RedirectedToLogin(o.url) then
        Raised(Perm(OrderLoggedOut + o.url))
      else match o.count
        case Raised(e) => Raised(e)
        case Returned(n) =>
          if n > 0 then Raised(Temp(OrderInputHidden + o.url))
          else Raised(Perm(OrderInputMissing + o.url))
    else if o.fill.Some? then Raised(o.fill.value)
    else Returned(StepResult(EnterOrderNumber, true, None, false, false, Some(orderNumber), None))
  }

  const OrderClauses: Clauses := Clauses(EnterOrderNumber,
    None, OrderTimeoutLead, true, OrderUnexpectedLead)

  /**
   * One call of `_step_enter_order_number`. It never returns a failure:
   * it succeeds carrying the order number, or it raises.
   */
  function OrderAttempt(o: OrderObs, orderNumber: string): (r: Outcome<StepResult>)
    ensures r.Returned? <==> o.visible && o.fill.None?
    ensures r.Returned? ==> r.value.success && r.value.step == EnterOrderNumber && r.value.orderNumber == Some(orderNumber)
    ensures r.Raised? ==> Classified(r.error)
  {
    Caught(OrderClauses, OrderBody(o, orderNumber), o.url)
  }

  /**
   * With no `except PermanentError` clause, the step's own "input not
   * found" `PermanentError` goes through the generic clause. On a URL
   * without "login", and for a message that classifies Temporary, it comes
   * out as a `TemporaryError`.
   */
  lemma OrderInputMissingIsDowngraded(o: OrderObs, orderNumber: string)
    requires !o.visible && o.content.Returned? && !RedirectedToLogin(o.url) && o.count == Returned(0)
    requires !Contains(Lower(o.url), "login")
    requires IsTemporaryError(Message(OrderInputMissing + o.url))
    ensures OrderAttempt(o, orderNumber) == Raised(Temp(OrderUnexpectedLead
      + (OrderInputMissing + o.url)))
  {
    var m := OrderInputMissing + o.url;
    assert OrderBody(o, orderNumber) == Raised(Perm(m));
    UnexpectedKeepsTemporary(OrderUnexpectedLead, Perm(m), o.url);
  }

  // ---------------------------------------------------------------------
  // execute_follow_up (lines 661-863)

  const FollowButtonHidden: string := "Follow order button not visible. Current URL: "
  const FollowButtonUnclickable: string := "Follow order button exists but couldn't be clicked. Current URL: "
  const ModalGoneLead: string := "Order failed - does not exist or completed: "
  const ModalDuplicateLead: string := "Order failed - duplicate (already followed): "
  const ModalUnknownLead: string := "Unknown modal message - treating as failure: "
  const ToastRejectedLead: string := "Follow-up failed - order may not exist or is duplicate: "
  const ToastFailedLead: string := "Follow-up failed: "
  const ToastUnclearLead: string := "Unclear result: "
  const PageDuplicateLead: string := "Follow-up failed - order is duplicate: "
  const PageSuccessMessage: string := "Success found in page content"
  const StatusNotFoundMessage: string := "Status message not found, but action may have succeeded"
  const FollowUpPermanentLead: string := "Permanent error during follow-up: "
  const FollowUpTimeoutMessage: string := "Timeout waiting for confirmation toast after clicking follow-up."
  const FollowUpUnexpectedLead: string := "An unexpected error occurred during follow-up: "

  /**
   * The click loop of lines 688-701: `max(1, configured)` clicks, and a
   * click that raises is logged and counted as a success too.
   */
  method ClickFollowOrderButton(configured: int, click: nat -> Action) returns (clickSuccess: bool, attempts: nat)
    ensures attempts == if configured < 1 then 1 else configured
    ensures clickSuccess
  {
    attempts := if configured < 1 then 1 else configured;
    clickSuccess := false;
    var i := 0;
    while i < attempts
      invariant 0 <= i <= attempts
      invariant clickSuccess <==> i > 0
    {
      var outcome := click(i);
      if outcome.None? {
        clickSuccess := true;
      } else {
        clickSuccess := true;
      }
      i := i + 1;
    }
  }

  const ModalFailureWords: seq<string> := ["not exist", "completed", "not found"]
  const ModalSuccessWords: seq<string> := ["success", "suivi", "réussi", "followed"]
  const ToastSuccessWords: seq<string> := ["succesfully followed", "suivi réussi", "success", "suivi"]
  const ToastFailureWords: seq<string> := ["completed", "not exist", "failed", "duplicate"]
  const PageSuccessWords: seq<string> := ["suivi", "réussi", "success", "suivi réussi"]

  /** The verdict of lines 731-749 on the modal's text. */
  function ModalVerdict(text: string): (r: Outcome<StepResult>)
    ensures r.Returned? ==> r.value.step == ExecuteFollowUp && r.value.success && r.value.toastMessage == Some("Success: " + Strip(text))
    ensures r.Raised? ==> r.error.kind == PermanentError
  {
    var lower := Lower(text);
    if ContainsAny(lower, ModalFailureWords) then
      Raised(Perm(ModalGoneLead + Strip(text)))
    else if Contains(lower, "duplicate") then
      Raised(Perm(ModalDuplicateLead + Strip(text)))
    else if ContainsAny(lower, ModalSuccessWords) then
      Returned(StepResult(ExecuteFollowUp, true, None, false, false, None, Some("Success: " + Strip(text))))
    else Raised(Perm(ModalUnknownLead + Strip(text)))
  }

  /** The verdict of lines 771-786 on the stripped toast text. */
  function ToastVerdict(text: string): (r: Outcome<StepResult>)
    ensures r.Returned? <==> ContainsAny(Lower(text), ToastSuccessWords)
    ensures r.Returned? ==> r.value.step == ExecuteFollowUp && r.value.success && r.value.toastMessage == Some(text)
  {
    var lower := Lower(text);
    if ContainsAny(lower, ToastSuccessWords) then
      Returned(StepResult(ExecuteFollowUp, true, None, false, false, None, Some(text)))
    else if ContainsAny(lower, ToastFailureWords) then
      if Contains(lower, "not exist") || Contains(lower, "duplicate") then
        Raised(Perm(ToastRejectedLead + text))
      else Raised(Temp(ToastFailedLead + text))
    else Raised(Temp(ToastUnclearLead + text))
  }

  /**
   * `page_content[i - 50:i + 50]` around the first "duplicate": at most 100
   * characters. `find` reads the page as it is, while the guard before it
   * tests the lower-cased page, so `i` is -1 when the word only appears
   * capitalised. From position 50 on it is the text around the word;
   * nearer the start (or at -1) the negative start counts from the end of
   * the page, so on a page of 100 characters or more the excerpt is empty.
   */
  function DuplicateExcerpt(content: string): (r: string)
    ensures |r| <= 100
    ensures var i := Find(content, "duplicate");
      50 <= i ==> r == content[i - 50..if i + 50 <= |content| then i + 50 else |content|]
    ensures Find(content, "duplicate") < 50 && 100 <= |content| ==> r == []
  {
    var i := Find(content, "duplicate");
    PySliceBounds(content, i - 50, i + 50);
    PySliceBounds(content, i - 50, |content|);
    PySliceBounds(content, |content| + i - 50, i + 50);
    PySlice(content, i - 50, i + 50)
  }

  /** The page-content scan of lines 793-814, inside the bare `except`. */
  function ContentScan(content: Outcome<string>): (r: Outcome<StepResult>)
    ensures r.Returned? ==> r.value.step == ExecuteFollowUp && r.value.success
    ensures r.Raised? && content.Returned? ==> r.error.kind == PermanentError && Contains(Lower(content.value), "duplicate")
  {
    match content
    case Raised(e) => Raised(e)
    case Returned(c) =>
      if Contains(Lower(c), "duplicate") then
        Raised(Perm(PageDuplicateLead + DuplicateExcerpt(c)))
      else if ContainsAny(Lower(c), PageSuccessWords) then
        Returned(StepResult(ExecuteFollowUp, true, None, false, false, None, Some(PageSuccessMessage)))
      else
        Returned(StepResult(ExecuteFollowUp, true, None, false, false, None,
          Some(StatusNotFoundMessage)))
  }

  datatype FollowUpObs = FollowUpObs(
    buttonVisible: bool,      // follow_button.wait_for(state="visible") completed
    url: string,
    modal: Option<string>,    // the modal's text; None if it did not show, or reading it failed
    toast: Option<string>,    // `text_content() or ""`; None if the toast did not show, or reading it failed
    content: Outcome<string>) // page.content() in the toast fallback

  function FollowUpBody(o: FollowUpObs, clickSuccess: bool): (b: Outcome<StepResult>)
    ensures b.Returned? ==> b.value.step == ExecuteFollowUp && b.value.success
  {
    if !o.buttonVisible then Raised(Temp(FollowButtonHidden + o.url))
    else if !clickSuccess then Raised(Temp(FollowButtonUnclickable + o.url))
    // `except Exception` at line 751 discards every modal verdict but success,
    // and the bare `except` at line 787 every toast verdict but success
    else if o.modal.Some? && ModalVerdict(o.modal.value).Returned? then ModalVerdict(o.modal.value)
    else if o.toast.Some? && ToastVerdict(Strip(o.toast.value)).Returned? then ToastVerdict(Strip(o.toast.value))
    else ContentScan(o.content)
  }

  const FollowUpClauses: Clauses := Clauses(ExecuteFollowUp,
    Some(FollowUpPermanentLead), FollowUpTimeoutMessage, false,
    FollowUpUnexpectedLead)

  /** One attempt of `_step_execute_follow_up`, the click loop having set `clickSuccess`. */
  function FollowUpAttempt(o: FollowUpObs, clickSuccess: bool): (r: Outcome<StepResult>)
    ensures r.Returned? ==> r.value.step == ExecuteFollowUp
    ensures r.Returned? && r.value.success ==> o.buttonVisible && clickSuccess
    ensures r.Raised? ==> Classified(r.error)
  {
    Caught(FollowUpClauses, FollowUpBody(o, clickSuccess), o.url)
  }

  /** A success word in the modal returns success with "Success: <text>". */
  lemma ModalSuccess(o: FollowUpObs)
    requires o.buttonVisible && o.modal.Some?
    requires !ContainsAny(Lower(o.modal.value), ModalFailureWords) && !Contains(Lower(o.modal.value), "duplicate")
    requires ContainsAny(Lower(o.modal.value), ModalSuccessWords)
    ensures FollowUpAttempt(o, true) == Returned(StepResult(ExecuteFollowUp, true, None, false, false, None,
      Some("Success: " + Strip(o.modal.value))))
  {
    assert FollowUpBody(o, true) == ModalVerdict(o.modal.value);
  }

  /**
   * The modal's failure verdicts ("not exist", "completed", "not found",
   * "duplicate", unknown text) are swallowed: the attempt goes on exactly
   * as if no modal had shown.
   */
  lemma ModalFailureSwallowed(o: FollowUpObs)
    requires o.modal.Some? && ModalVerdict(o.modal.value).Raised?
    ensures FollowUpAttempt(o, true) == FollowUpAttempt(o.(modal := None), true)
  {
    assert FollowUpBody(o, true) == FollowUpBody(o.(modal := None), true);
  }

  /**
   * Past the modal, a toast with a success word returns success carrying
   * the toast text. Every other toast, and a missing toast, lead to the
   * page-content scan, as if no toast had shown.
   */
  lemma ToastDecides(o: FollowUpObs)
    requires o.buttonVisible && o.toast.Some?
    requires o.modal.None? || ModalVerdict(o.modal.value).Raised?
    ensures var t := Strip(o.toast.value);
      if ContainsAny(Lower(t), ToastSuccessWords) then
        FollowUpAttempt(o, true) == Returned(StepResult(ExecuteFollowUp, true, None, false, false, None, Some(t)))
      else FollowUpAttempt(o, true) == FollowUpAttempt(o.(toast := None), true)
  {
    var t := Strip(o.toast.value);
    if ContainsAny(Lower(t), ToastSuccessWords) {
      assert FollowUpBody(o, true) == ToastVerdict(t);
    } else {
      assert FollowUpBody(o, true) == FollowUpBody(o.(toast := None), true);
    }
  }

  /**
   * With neither a successful modal nor a successful toast, "duplicate" in
   * the page content gives a returned failure; any other readable content
   * gives success.
   */
  lemma ContentScanDecides(o: FollowUpObs)
    requires o.buttonVisible && o.content.Returned?
    requires o.modal.None? || ModalVerdict(o.modal.value).Raised?
    requires o.toast.None? || ToastVerdict(Strip(o.toast.value)).Raised?
    ensures var c := o.content.value;
      && FollowUpAttempt(o, true).Returned?
      && (FollowUpAttempt(o, true).value.success <==> !Contains(Lower(c), "duplicate"))
      && (Contains(Lower(c), "duplicate") ==>
            FollowUpAttempt(o, true) == Returned(Failed(ExecuteFollowUp, FollowUpPermanentLead
              + (PageDuplicateLead + DuplicateExcerpt(c)))))
  {
    assert FollowUpBody(o, true) == ContentScan(o.content);
  }

  /** The only failure a follow-up attempt returns is the "duplicate" found in the page content. */
  lemma FollowUpFailureIsDuplicate(o: FollowUpObs)
    requires FollowUpAttempt(o, true).Returned? && !FollowUpAttempt(o, true).value.success
    ensures o.buttonVisible
    ensures match o.content
      case Returned(c) => Contains(Lower(c), "duplicate")
      case Raised(e) => e.kind == PermanentError
  {
    var b := FollowUpBody(o, true);
    assert b.Raised? && b.error.kind == PermanentError;
  }

  /** A button that never became visible makes the attempt raise, so it is retried. */
  lemma ButtonMissingIsRetried(o: FollowUpObs)
    requires !o.buttonVisible
    ensures FollowUpAttempt(o, true).Raised?
  {
    assert FollowUpBody(o, true) == Raised(Temp(FollowButtonHidden + o.url));
  }

  // ---------------------------------------------------------------------
  // login (lines 211-406)

  const ProbeTimeoutLead: string := "Timeout validating existing session: "
  const ProbeErrorLead: string := "Error validating existing session: "
  const ProbeLoginErrorLead: string := "Permanent error validating existing session: "
  const FormNotReached: string := "Did not reach login page as expected. Current URL: "
  const FormShowsError: string := "Login page shows error - likely incorrect credentials"
  const FormNotVisible: string := "Login form not visible - possible temporary page loading issue"
  const RedirectCredentialsLead: string := "Login failed - likely incorrect credentials. Current URL: "
  const RedirectStillOnLogin: string := "Still on login page after submission - possible temporary issue. URL: "
  const MarkerCredentialsLead: string := "Login appeared successful but post-login elements missing - likely incorrect credentials. Current URL: "
  const MarkerMissingLead: string := "Post-login elements not found. Current URL: "
  const LoginPermanentLead: string := "Permanent error during login: "
  const LoginTimeoutLead: string := "Timeout during login step: "
  const LoginUnexpectedLead: string := "Unexpected error during login: "

  const FormErrorWords: seq<string> := ["invalid", "error", "incorrect"]
  const CredentialErrorWords: seq<string> := ["incorrect", "invalid", "error", "wrong password", "wrong credentials"]
  const CredentialWords: seq<string> := ["password", "credential", "auth"]

  datatype LoginObs = LoginObs(
    storageFile: bool,          // the storage-state file exists
    probeGoto: Action,          // page.goto(base_url) of the session probe
    probeMarker: bool,          // the post-login marker showed up during the probe
    loginGoto: Action,          // page.goto(login_url)
    formVisible: bool,          // the username input showed up
    formUrl: string,
    formTitle: Outcome<bool>,   // the `"login" in page.title().lower()` clause
    formContent: Outcome<string>,
    fillUser: Action,
    fillPassword: Action,
    submit: Action,
    redirect: Action,           // page.wait_for_url(...)
    redirectUrl: string,
    redirectContent: Outcome<string>,
    redirectTitle: Outcome<bool>,
    markerVisible: bool,        // the post-login marker showed up
    markerUrl: string,
    markerContent: Outcome<string>)

  /**
   * The session probe of lines 222-256: `None` when it falls through to
   * the full login. Only a Playwright timeout or a login-flavoured error
   * escapes it, through `classify_and_raise`.
   */
  function Probe(goto: Action, marker: bool): (r: Option<Outcome<StepResult>>)
    ensures r == Some(Returned(StepResult(Login, true, None, false, true, None, None))) <==> goto.None? && marker
    ensures r.Some? && r.value.Raised? ==> Classified(r.value.error)
  {
    match goto
    case None =>
      if marker then Some(Returned(StepResult(Login, true, None, false, true, None, None))) else None
    case Some(e) =>
      if e.kind == PlaywrightTimeout then
        if IsTimeoutError(Error(e)) then Some(Raised(ClassifyAndRaise(Message(ProbeTimeoutLead + e.message))))
        else Some(Raised(ClassifyAndRaise(Message(ProbeErrorLead + e.message))))
      else if IsLoginError(Error(e)) then
        Some(Raised(ClassifyAndRaise(Message(ProbeLoginErrorLead + e.message))))
      else None
  }

  /**
   * Lines 271-283: the login form did not show up. The exception is
   * Permanent only when the page shows an error word or a reading of the
   * page raised it; only such a raised reading can escape unclassified.
   */
  function FormMissing(o: LoginObs): (r: Exception)
    ensures r.kind == PermanentError ==>
      || o.formTitle == Raised(r) || o.formContent == Raised(r)
      || (o.formContent.Returned? && ContainsAny(Lower(o.formContent.value), FormErrorWords) && r == Perm(FormShowsError))
    ensures !Classified(r) ==> o.formTitle == Raised(r) || o.formContent == Raised(r)
  {
    var onLoginPage :=
      if Contains(Lower(o.formUrl), "/login") then Returned(true) else o.formTitle;
    match onLoginPage
    case Raised(e) => e
    case Returned(false) => Temp(FormNotReached + o.formUrl)
    case Returned(true) =>
      match o.formContent
      case Raised(e) => e
      case Returned(c) =>
        if ContainsAny(Lower(c), FormErrorWords) then Perm(FormShowsError)
        else Temp(FormNotVisible)
  }

  /**
   * Lines 309-325: `wait_for_url` timed out; `None` is the `pass`. The
   * stall is ignored exactly when the page was read, shows no credential
   * error and is not the login page; a credential error is Permanent.
   */
  function RedirectStalled(o: LoginObs): (r: Option<Exception>)
    ensures r.None? <==>
      && o.redirectContent.Returned? && !ContainsAny(Lower(o.redirectContent.value), CredentialErrorWords)
      && !Contains(Lower(o.redirectUrl), "/login") && o.redirectTitle == Returned(false)
    ensures o.redirectContent.Returned? && ContainsAny(Lower(o.redirectContent.value), CredentialErrorWords) ==>
      r == Some(Perm(RedirectCredentialsLead + o.redirectUrl))
    ensures r.Some? && !Classified(r.value) ==> o.redirectContent == Raised(r.value) || o.redirectTitle == Raised(r.value)
  {
    match o.redirectContent
    case Raised(e) => Some(e)
    case Returned(c) =>
      if ContainsAny(Lower(c), CredentialErrorWords) then
        Some(Perm(RedirectCredentialsLead + o.redirectUrl))
      else
        var onLoginPage :=
          if Contains(Lower(o.redirectUrl), "/login") then Returned(true) else o.redirectTitle;
        match onLoginPage
        case Raised(e) => Some(e)
        case Returned(true) =>
          Some(Temp(RedirectStillOnLogin + o.redirectUrl))
        case Returned(false) => None
  }

  /**
   * Lines 330-339: the post-login marker did not show up. Once the page is
   * read, the exception is Permanent exactly when it shows a credential
   * error, and Temporary otherwise.
   */
  function MarkerMissing(o: LoginObs): (r: Exception)
    ensures o.markerContent.Returned? ==>
      Classified(r) && (r.kind == PermanentError <==> ContainsAny(Lower(o.markerContent.value), CredentialErrorWords))
    ensures o.markerContent.Raised? ==> r == o.markerContent.error
  {
    match o.markerContent
    case Raised(e) => e
    case Returned(c) =>
      if ContainsAny(Lower(c), CredentialErrorWords) then
        Perm(MarkerCredentialsLead + o.markerUrl)
      else Temp(MarkerMissingLead + o.markerUrl)
  }

  function LoginBody(o: LoginObs, hasStoragePath: bool): (b: Outcome<StepResult>)
    ensures b.Returned? ==> b.value.step == Login && b.value.success
  {
    var probe := if hasStoragePath && o.storageFile then Probe(o.probeGoto, o.probeMarker) else None;
    if probe.Some? then probe.value
    else if o.loginGoto.Some? then Raised(o.loginGoto.value)
    else if !o.formVisible then Raised(FormMissing(o))
    else if o.fillUser.Some? then Raised(o.fillUser.value)
    else if o.fillPassword.Some? then Raised(o.fillPassword.value)
    else if o.submit.Some? then Raised(o.submit.value)
    else if o.redirect.Some? && o.redirect.value.kind != PlaywrightTimeout then Raised(o.redirect.value)
    else if o.redirect.Some? && RedirectStalled(o).Some? then Raised(RedirectStalled(o).value)
    else if !o.markerVisible then Raised(MarkerMissing(o))
    else Returned(Succeeded(Login))
  }

  /** The `except Exception` clause of lines 376-406. */
  function LoginUnexpected(e: Exception): (r: Exception)
    ensures Classified(r)
  {
    var msg := LoginUnexpectedLead + e.message;
    if IsLoginError(Error(e)) then
      if ContainsAny(Lower(e.message), CredentialWords) then ClassifyAndRaise(Message(msg))
      else if IsNetworkError(Error(e)) || IsTimeoutError(Error(e)) then Temp(msg)
      else ClassifyAndRaise(Message(msg))
    else if IsNetworkError(Error(e)) || IsTimeoutError(Error(e)) then Temp(msg)
    else if IsElementNotFoundError(Error(e)) then Temp(msg)
    else if IsPermanentError(Error(e)) then ClassifyAndRaise(Message(msg))
    else Temp(msg)
  }

  /** The `except` clauses of lines 354-406 around the login `try` block. */
  function LoginCaught(body: Outcome<StepResult>): (r: Outcome<StepResult>)
    ensures body.Returned? ==> r == body
    ensures body.Raised? ==> (r.Returned? <==> body.error.kind == PermanentError)
    ensures body.Raised? && r.Returned? ==> r.value == Failed(Login, LoginPermanentLead + body.error.message)
    ensures r.Raised? ==> Classified(r.error)
  {
    match body
    case Returned(_) => body
    case Raised(e) =>
      if e.kind == PermanentError then Returned(Failed(Login, LoginPermanentLead + e.message))
      else if e.kind == PlaywrightTimeout then
        var msg := LoginTimeoutLead + e.message;
        if IsLoginError(Message(e.message)) then Raised(ClassifyAndRaise(Message(msg))) else Raised(Temp(msg))
      else Raised(LoginUnexpected(e))
  }

  /**
   * One attempt of `_step_login` (not a dry run). `hasStoragePath` is the
   * truth of `self.storage_state_path`.
   */
  function LoginAttempt(o: LoginObs, hasStoragePath: bool): (r: Outcome<StepResult>)
    ensures r.Returned? ==> r.value.step == Login
    ensures r.Returned? && r.value.success ==>
      || (hasStoragePath && o.storageFile && o.probeGoto.None? && o.probeMarker)
      || (&& o.loginGoto.None? && o.formVisible && o.fillUser.None? && o.fillPassword.None?
          && o.submit.None? && o.markerVisible)
    ensures r.Raised? ==> Classified(r.error)
  {
    LoginCaught(LoginBody(o, hasStoragePath))
  }

  /** An existing session (storage file present, marker visible) skips the login form. */
  lemma CachedSession(o: LoginObs)
    requires o.storageFile && o.probeGoto.None? && o.probeMarker
    ensures LoginAttempt(o, true) == Returned(StepResult(Login, true, None, false, true, None, None))
  {
    assert LoginBody(o, true) == Returned(StepResult(Login, true, None, false, true, None, None));
  }

  /**
   * A probe that fails quietly (marker absent, or a navigation error that
   * is neither a Playwright timeout nor login-flavoured) falls through to
   * the full login, exactly as with no storage file.
   */
  lemma ProbeFallsThrough(o: LoginObs)
    requires o.storageFile
    requires o.probeGoto.None? ==> !o.probeMarker
    requires o.probeGoto.Some? ==> o.probeGoto.value.kind != PlaywrightTimeout && !IsLoginError(Error(o.probeGoto.value))
    ensures LoginAttempt(o, true) == LoginAttempt(o.(storageFile := false), true)
  {
    assert Probe(o.probeGoto, o.probeMarker).None?;
    assert LoginBody(o, true) == LoginBody(o.(storageFile := false), true);
  }

  /**
   * A probe timeout is re-raised by `classify_and_raise` and reaches the
   * outer handlers. When it classifies Permanent, the attempt returns a
   * failure carrying "Permanent error during login: Permanent error: …".
   * When it classifies Temporary, the outer `except Exception` raises, so
   * the attempt is retried.
   */
  lemma ProbeTimeout(o: LoginObs)
    requires o.storageFile && o.probeGoto.Some? && o.probeGoto.value.kind == PlaywrightTimeout
    ensures var m := ProbeTimeoutLead + o.probeGoto.value.message;
      && (IsPermanentError(Message(m)) ==>
            LoginAttempt(o, true) == Returned(Failed(Login, LoginPermanentLead + (PermanentPrefix + m))))
      && (IsTemporaryError(Message(m)) ==> LoginAttempt(o, true).Raised?)
  {
    var m := ProbeTimeoutLead + o.probeGoto.value.message;
    assert IsTimeoutError(Error(o.probeGoto.value));
    assert LoginBody(o, true) == Raised(ClassifyAndRaise(Message(m)));
  }

  /**
   * A login form that never showed up on a page whose URL lacks "/login"
   * raises, so the attempt is retried. In the source the title test always
   * raises, since `page.title()` is not awaited and the coroutine has no
   * `lower()`; the `AttributeError` is not a PermanentError, so that case
   * is retried too. The `Returned(false)` case is the awaited title of a
   * page not named "login".
   */
  lemma NotOnLoginPageIsRetried(o: LoginObs, hasStoragePath: bool)
    requires !(hasStoragePath && o.storageFile) && o.loginGoto.None? && !o.formVisible
    requires !Contains(Lower(o.formUrl), "/login")
    requires o.formTitle == Returned(false) || (o.formTitle.Raised? && o.formTitle.error.kind != PermanentError)
    ensures LoginAttempt(o, hasStoragePath).Raised?
  {
    if o.formTitle.Raised? {
      assert LoginBody(o, hasStoragePath) == Raised(o.formTitle.error);
    } else {
      assert LoginBody(o, hasStoragePath) == Raised(Temp(FormNotReached + o.formUrl));
    }
  }

  /** Credential error words after a stalled redirect give a returned failure. */
  lemma StalledWithCredentialError(o: LoginObs, hasStoragePath: bool)
    requires !(hasStoragePath && o.storageFile) && o.loginGoto.None? && o.formVisible
    requires o.fillUser.None? && o.fillPassword.None? && o.submit.None?
    requires o.redirect.Some? && o.redirect.value.kind == PlaywrightTimeout
    requires o.redirectContent.Returned? && ContainsAny(Lower(o.redirectContent.value), CredentialErrorWords)
    ensures LoginAttempt(o, hasStoragePath) == Returned(Failed(Login, LoginPermanentLead
      + (RedirectCredentialsLead + o.redirectUrl)))
  {
    assert LoginBody(o, hasStoragePath) == Raised(Perm(RedirectCredentialsLead + o.redirectUrl));
  }

  /**
   * A stalled redirect that is neither on a login page nor showing an
   * error is ignored, and the post-login marker decides.
   */
  lemma StalledRedirectIgnored(o: LoginObs, hasStoragePath: bool)
    requires o.redirect.Some? && o.redirect.value.kind == PlaywrightTimeout && RedirectStalled(o).None?
    ensures LoginAttempt(o, hasStoragePath) == LoginAttempt(o.(redirect := None), hasStoragePath)
  {
    assert RedirectStalled(o) == RedirectStalled(o.(redirect := None));
    assert LoginBody(o, hasStoragePath) == LoginBody(o.(redirect := None), hasStoragePath);
  }
}
