/**
 * The WhatsApp webhook of server/main.py: a `copy <order>` message
 * schedules one background trade run, anything else gets an error reply,
 * and a request without sender or body is refused with HTTP 400. The
 * background run gives up before launching a browser when there are no
 * accounts.
 */
module Server {
  import opened Wrappers
  import opened Text
  import opened Accounts
  import Actions

  /** `Body.strip().lower().split()`. */
  function Tokens(body: string): seq<string> {
    Split(Lower(Strip(body)))
  }

  /**
   * The command parse of lines 90-92: exactly two tokens, the first
   * `copy`; the order number is the second token. It is one non-empty
   * word without spaces or capitals.
   */
  function ParseCommand(body: string): (order: Option<string>)
    ensures order.Some? <==> |Tokens(body)| == 2 && Tokens(body)[0] == "copy"
    ensures order.Some? ==> order.value == Tokens(body)[1]
    ensures order.Some? ==> order.value != "" && NoUpper(order.value)
    ensures order.Some? ==> forall i :: 0 <= i < |order.value| ==> !IsSpace(order.value[i])
  {
    var parts := Split(Lower(Strip(body)));
    if |parts| == 2 && parts[0] == "copy" then
      NoUpperPart(Strip(body), parts[1]);
      Some(parts[1])
    else None
  }

  /** A word followed by nothing or by whitespace is read whole. */
  lemma {:induction false} WordOf(w: string, rest: string)
    requires NoSpace(w)
    requires rest == [] || IsSpace(rest[0])
    ensures Word(w + rest) == w
    decreases |w|
  {
    if w != [] {
      assert (w + rest)[1..] == w[1..] + rest;
      WordOf(w[1..], rest);
    }
  }

  /** Two words separated by whitespace split into those two words. */
  lemma SplitWords(a: string, sep: string, b: string)
    requires a != [] && b != [] && NoSpace(a) && NoSpace(b)
    requires sep != [] && AllSpace(sep)
    ensures Split(a + sep + b) == [a, b]
  {
    var s := a + sep + b;
    var rest := sep + b;
    assert s == a + rest;
    WordOf(a, rest);
    assert s[|a|..] == rest;
    assert Split(s) == [a] + Split(rest);
    SplitSpaces(sep, b);
    WordOf(b, []);
    assert b + [] == b;
    assert b[|b|..] == [];
    assert Split(b) == [b] + Split([]);
  }

  /** Lower-casing keeps a word a word. */
  lemma LowerWord(a: string)
    requires NoSpace(a)
    ensures NoSpace(Lower(a)) && |Lower(a)| == |a|
  {
    forall i | 0 <= i < |a| ensures !IsSpace(Lower(a)[i]) {
      LowerCharSpace(a[i]);
    }
  }

  /** Lower-casing two words and the whitespace between them. */
  lemma LowerWords(a: string, sep: string, b: string)
    requires AllSpace(sep)
    ensures Lower(a + sep + b) == Lower(a) + sep + Lower(b)
  {
    LowerAppend(a, sep);
    LowerAppend(a + sep, b);
    assert NoUpper(sep);
    LowerNoUpper(sep);
  }

  /**
   * Any body made of a first word, whitespace, a second word and optional
   * surrounding whitespace is accepted exactly when the first word is
   * `copy` in any case, and the order number is the second word
   * lower-cased.
   */
  lemma ParseCommandWords(pre: string, a: string, sep: string, b: string, post: string)
    requires AllSpace(pre) && AllSpace(post) && sep != [] && AllSpace(sep)
    requires a != [] && b != [] && NoSpace(a) && NoSpace(b)
    ensures ParseCommand(pre + a + sep + b + post) == if Lower(a) == "copy" then Some(Lower(b)) else None
  {
    var mid := a + sep + b;
    assert pre + a + sep + b + post == pre + mid + post;
    assert mid[0] == a[0] && mid[|mid| - 1] == b[|b| - 1];
    StripAround(pre, mid, post);
    LowerWords(a, sep, b);
    LowerWord(a);
    LowerWord(b);
    SplitWords(Lower(a), sep, Lower(b));
  }

  /** A mixed-case command schedules the lowercased order number. */
  lemma MixedCaseCommand(body: string)
    requires body == "COPY AbC12"
    ensures ParseCommand(body) == Some("abc12")
  {
    var a, b := "COPY", "AbC12";
    MixedCaseWords(a, b);
    assert [] + a + " " + b + [] == body;
    assert AllSpace([]);
    ParseCommandWords([], a, " ", b, []);
    assert ParseCommand(body) == Some(Lower(b));
  }

  lemma MixedCaseWords(a: string, b: string)
    requires a == "COPY" && b == "AbC12"
    ensures NoSpace(a) && NoSpace(b) && AllSpace(" ")
    ensures Lower(a) == "copy" && Lower(b) == "abc12"
  {
  }

  /** A run of `run_trade_task` as scheduled: the background task's arguments. */
  datatype TradeTask = TradeTask(orderNumber: string, dryRun: bool)

  /** The FastAPI `BackgroundTasks` the handler adds to. */
  class BackgroundTasks {
    var tasks: seq<TradeTask>

    constructor ()
      ensures tasks == []
    {
      tasks := [];
    }

    method AddTask(task: TradeTask)
      modifies this
      ensures tasks == old(tasks) + [task]
    {
      tasks := tasks + [task];
    }
  }

  const MissingFieldsDetail: string := "Missing 'From' or 'Body' fields"
  const InvalidCommandReply: string :=
    "\U{274C} Commande non valide. Veuillez utiliser le format : copy <num\U{00E9}ro_ordre>"

  const ConfirmationLead: string := "\U{2705} Commande re\U{00E7}ue ! D\U{00E9}marrage du copy trading pour l'ordre : "
  const ConfirmationTail: string := ". Vous recevrez une notification \U{00E0} la fin."

  /**
   * The confirmation of an accepted command: the order number between a
   * fixed lead and a fixed tail, never mistaken for the refusal.
   */
  function ConfirmationReply(order: string): (reply: string)
    ensures |reply| == |ConfirmationLead| + |order| + |ConfirmationTail|
    ensures reply[..|ConfirmationLead|] == ConfirmationLead
    ensures reply[|ConfirmationLead|..|ConfirmationLead| + |order|] == order
    ensures reply[|ConfirmationLead| + |order|..] == ConfirmationTail
    ensures reply != InvalidCommandReply
  {
    var reply := ConfirmationLead + order + ConfirmationTail;
    assert reply[|reply| - 1] == ConfirmationTail[|ConfirmationTail| - 1] == '.';
    assert InvalidCommandReply[|InvalidCommandReply| - 1] == '>';
    reply
  }

  /** The confirmation names its order: two orders share a reply only if they are equal. */
  lemma ConfirmationNamesOrder(a: string, b: string)
    ensures ConfirmationReply(a) == ConfirmationReply(b) <==> a == b
  {
    if ConfirmationReply(a) == ConfirmationReply(b) {
      var n := |ConfirmationLead|;
      assert a == ConfirmationReply(a)[n..n + |a|];
      assert b == ConfirmationReply(b)[n..n + |b|];
    }
  }

  /** The HTTP 400 refusal, or the text of the TwiML reply. */
  datatype WebhookResponse = BadRequest(detail: string) | Reply(message: string)

  /** `handle_whatsapp_webhook`. */
  method HandleWhatsappWebhook(background: BackgroundTasks, from: Option<string>, body: Option<string>)
      returns (response: WebhookResponse)
    modifies background
    ensures !(Given(from) && Given(body)) ==>
      response == BadRequest(MissingFieldsDetail) && background.tasks == old(background.tasks)
    ensures Given(from) && Given(body) && ParseCommand(body.value).Some? ==>
      var order := ParseCommand(body.value).value;
      background.tasks == old(background.tasks) + [TradeTask(order, false)] && response == Reply(ConfirmationReply(order))
    ensures Given(from) && Given(body) && ParseCommand(body.value).None? ==>
      background.tasks == old(background.tasks) && response == Reply(InvalidCommandReply)
  {
    if !Given(from) || !Given(body) {
      return BadRequest(MissingFieldsDetail);
    }
    var parts := Tokens(body.value);
    if |parts| == 2 && parts[0] == "copy" {
      var order := parts[1];
      background.AddTask(TradeTask(order, false));
      response := Reply(ConfirmationReply(order));
    } else {
      response := Reply(InvalidCommandReply);
    }
  }

  /** The `orchestrate_accounts` call `run_trade_task` makes. */
  datatype TradeRun = TradeRun(accounts: seq<Account>, orderNumber: string, dryRun: bool,
                               headless: bool, performant: bool, skipHistory: bool)

  /**
   * `run_trade_task`: the accounts to process are selected, and with none
   * it returns before launching a browser. Otherwise every account is run
   * headless and performant, with history verification.
   */
  function RunTradeTask(task: TradeTask, fromFile: seq<Account>, username: Option<string>, password: Option<string>)
      : (run: Option<TradeRun>)
    ensures run.None? <==> fromFile == [] && !(Given(username) && Given(password))
    ensures run.Some? ==>
      && run.value.accounts == Actions.GetAccountsToProcess(fromFile, username, password)
      && run.value.accounts != []
      && run.value.orderNumber == task.orderNumber && run.value.dryRun == task.dryRun
      && run.value.headless && run.value.performant && !run.value.skipHistory
  {
    var accounts := Actions.GetAccountsToProcess(fromFile, username, password);
    if accounts == [] then None
    else Some(TradeRun(accounts, task.orderNumber, task.dryRun, true, true, false))
  }

  /** Every run a webhook schedules is live. */
  lemma WebhookRunsAreLive(body: string, fromFile: seq<Account>, username: Option<string>, password: Option<string>)
    requires ParseCommand(body).Some?
    ensures var run := RunTradeTask(TradeTask(ParseCommand(body).value, false), fromFile, username, password);
      run.Some? ==> !run.value.dryRun && run.value.orderNumber == ParseCommand(body).value
  {
  }
}
