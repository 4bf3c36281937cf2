/**
 * The dictionaries both workflow engines build: one result per step and
 * the per-account report around them, and the dry-run step list the two
 * engines fabricate alike.
 */
module Reports {
  import opened Wrappers

  /** The five steps of a copy trade, in the order the engines run them. */
  datatype StepName = Login | NavigateToContract | NavigateToCopyTrading | EnterOrderNumber | ExecuteFollowUp

  /** The `"step"` key each result carries. */
  function StepKey(s: StepName): string {
    match s
    case Login => "login"
    case NavigateToContract => "navigate_to_contract"
    case NavigateToCopyTrading => "navigate_to_copy_trading"
    case EnterOrderNumber => "enter_order_number"
    case ExecuteFollowUp => "execute_follow_up"
  }

  const LivePipeline: seq<StepName> :=
    [Login, NavigateToContract, NavigateToCopyTrading, EnterOrderNumber, ExecuteFollowUp]

  /**
   * A step's result dictionary. Keys the step did not set are `None` or
   * `false`: `error`, `simulated`, `cached`, `order_number`, `toast_message`.
   */
  datatype StepResult = StepResult(
    step: StepName,
    success: bool,
    error: Option<string>,
    simulated: bool,
    cached: bool,
    orderNumber: Option<string>,
    toastMessage: Option<string>)

  function Succeeded(step: StepName): StepResult {
    StepResult(step, true, None, false, false, None, None)
  }

  function Failed(step: StepName, error: string): StepResult {
    StepResult(step, false, Some(error), false, false, None, None)
  }

  function Simulated(step: StepName): StepResult {
    StepResult(step, true, None, true, false, None, None)
  }

  /**
   * A workflow report. `orderNumber` is set by copy trades only; `timed`
   * says whether `end_time_utc` and `duration_seconds` were written (their
   * values are clock readings and are not modelled).
   */
  datatype Report = Report(
    accountName: string,
    orderNumber: Option<string>,
    dryRun: bool,
    steps: seq<StepResult>,
    success: bool,
    error: Option<string>,
    timed: bool)

  /**
   * The simulated step list of a dry-run copy trade: the live pipeline,
   * with the order number on its fourth entry, and a second follow-up
   * unless history verification is skipped.
   */
  function DryRunSteps(orderNumber: string, skipHistory: bool): (steps: seq<StepResult>)
    ensures |steps| == |LivePipeline| + (if skipHistory then 0 else 1)
    ensures forall i :: 0 <= i < |LivePipeline| ==> steps[i].step == LivePipeline[i]
    ensures !skipHistory ==> steps[|LivePipeline|].step == ExecuteFollowUp
    ensures forall i :: 0 <= i < |steps| ==> steps[i].success && steps[i].simulated && steps[i].error.None?
    ensures forall i :: 0 <= i < |steps| ==>
      steps[i].orderNumber == (if steps[i].step == EnterOrderNumber then Some(orderNumber) else None)
  {
    var order := StepResult(EnterOrderNumber, true, None, true, false, Some(orderNumber), None);
    var five := [Simulated(Login), Simulated(NavigateToContract), Simulated(NavigateToCopyTrading), order,
                 Simulated(ExecuteFollowUp)];
    if skipHistory then five else five + [Simulated(ExecuteFollowUp)]
  }

  /** The report of a dry-run copy trade. */
  function DryRunReport(accountName: string, orderNumber: string, skipHistory: bool): (r: Report)
    ensures r.success && r.error.None? && r.dryRun && r.timed
    ensures r.orderNumber == Some(orderNumber) && r.accountName == accountName
    ensures |r.steps| == (if skipHistory then 5 else 6)
  {
    Report(accountName, Some(orderNumber), true, DryRunSteps(orderNumber, skipHistory), true, None, true)
  }
}
