/**
 * `orchestrate_accounts` of orchestrator.py: one worker per account, each
 * opening a browser context, running the account in it and closing it, and
 * the results gathered in account order with exceptions as entries. The
 * workers are run one after the other; the semaphore that lets up to the
 * clamped number of them overlap is not modelled.
 */
module Orchestrator {
  import opened Wrappers
  import opened Retry
  import opened Accounts

  /** `max(1, min(int(max_concurrency or 1), 10))`, with `None` as the missing setting. */
  function Clamp(maxConcurrency: Option<int>): (limit: int)
    ensures 1 <= limit <= 10
    ensures maxConcurrency.Some? && 1 <= maxConcurrency.value <= 10 ==> limit == maxConcurrency.value
    ensures maxConcurrency.None? || maxConcurrency.value <= 1 ==> limit == 1
    ensures maxConcurrency.Some? && maxConcurrency.value >= 10 ==> limit == 10
  {
    var n := if maxConcurrency.None? || maxConcurrency.value == 0 then 1 else maxConcurrency.value;
    if n < 1 then 1 else if n > 10 then 10 else n
  }

  lemma ClampExamples()
    ensures Clamp(Some(0)) == 1 && Clamp(None) == 1 && Clamp(Some(50)) == 10 && Clamp(Some(-3)) == 1
  {
  }

  type Action = Option<Exception>

  /**
   * What creating the context, the account's run and closing the context
   * do for one account. `run` is what `run_for_account` returns or raises.
   */
  datatype WorkerObs<T> = WorkerObs(newContext: Action, run: Outcome<T>, close: Action)

  /** A context opened for account `account` with a storage-state file, or closed. */
  datatype ContextEvent = Opened(account: nat, storageState: Option<string>) | Closed(account: nat)

  /**
   * The worker's outcome. A failed context creation raises before the run
   * and closes nothing; otherwise the context is closed in the `finally`,
   * and an exception from closing it replaces the run's outcome.
   */
  function WorkerResult<T>(o: WorkerObs<T>): (r: Outcome<T>)
    ensures r.Returned? ==> o.newContext.None? && o.close.None? && r == o.run
    ensures o.newContext.Some? ==> r == Raised(o.newContext.value)
  {
    if o.newContext.Some? then Raised(o.newContext.value)
    else if o.close.Some? then Raised(o.close.value)
    else o.run
  }

  function WorkerEvents<T>(i: nat, path: Option<string>, o: WorkerObs<T>): seq<ContextEvent> {
    if o.newContext.Some? then [] else [Opened(i, path), Closed(i)]
  }

  /** The context events of the first `n` workers, in order. */
  function Lifecycle<T>(accounts: seq<Account>, store: StorageSettings, obs: nat -> WorkerObs<T>, n: nat): (events: seq<ContextEvent>)
    requires n <= |accounts|
    ensures forall k :: 0 <= k < |events| ==> events[k].account < n
  {
    if n == 0 then []
    else Lifecycle(accounts, store, obs, n - 1) + WorkerEvents(n - 1, StoragePath(store, accounts[n - 1].accountName), obs(n - 1))
  }

  /** The worker of lines 43-67 for the account at position `i`. */
  method Worker<T>(i: nat, account: Account, store: StorageSettings, o: WorkerObs<T>)
      returns (result: Outcome<T>, events: seq<ContextEvent>)
    ensures result == WorkerResult(o)
    ensures events == WorkerEvents(i, StoragePath(store, account.accountName), o)
  {
    var path := StoragePath(store, account.accountName);
    var hasContext := false;
    events := [];
    if o.newContext.Some? {
      result := Raised(o.newContext.value);
    } else {
      hasContext := true;
      events := events + [Opened(i, path)];
      result := o.run;
    }
    if hasContext {
      events := events + [Closed(i)];
      if o.close.Some? {
        result := Raised(o.close.value);
      }
    }
  }

  /** `orchestrate_accounts`, with the workers run in account order. */
  method OrchestrateAccounts<T>(accounts: seq<Account>, store: StorageSettings, obs: nat -> WorkerObs<T>)
      returns (results: seq<Outcome<T>>, events: seq<ContextEvent>)
    ensures accounts == [] ==> results == [] && events == []
    ensures |results| == |accounts|
    ensures forall i :: 0 <= i < |accounts| ==> results[i] == WorkerResult(obs(i))
    ensures events == Lifecycle(accounts, store, obs, |accounts|)
  {
    if accounts == [] {
      return [], [];
    }
    results := [];
    events := [];
    var i := 0;
    while i < |accounts|
      invariant 0 <= i <= |accounts| && |results| == i
      invariant forall k :: 0 <= k < i ==> results[k] == WorkerResult(obs(k))
      invariant events == Lifecycle(accounts, store, obs, i)
    {
      var r, e := Worker(i, accounts[i], store, obs(i));
      results := results + [r];
      events := events + e;
      i := i + 1;
    }
  }

  /**
   * The context of account `i` is opened, with that account's storage
   * path, exactly when its creation succeeded, and then it is also closed;
   * a failed creation leaves nothing to close.
   */
  lemma {:induction false} ContextsPaired<T>(accounts: seq<Account>, store: StorageSettings, obs: nat -> WorkerObs<T>,
                                            n: nat, i: nat)
    requires i < n <= |accounts|
    ensures Opened(i, StoragePath(store, accounts[i].accountName)) in Lifecycle(accounts, store, obs, n)
        <==> obs(i).newContext.None?
    ensures Closed(i) in Lifecycle(accounts, store, obs, n) <==> obs(i).newContext.None?
    ensures forall p :: Opened(i, p) in Lifecycle(accounts, store, obs, n) ==> p == StoragePath(store, accounts[i].accountName)
  {
    var before := Lifecycle(accounts, store, obs, n - 1);
    var last := WorkerEvents(n - 1, StoragePath(store, accounts[n - 1].accountName), obs(n - 1));
    var all := Lifecycle(accounts, store, obs, n);
    assert all == before + last;
    if i == n - 1 {
      forall e | e in before ensures e.account != i {
        var j :| 0 <= j < |before| && before[j] == e;
      }
      forall e: ContextEvent | e.account == i ensures e in all <==> e in last {}
    } else {
      ContextsPaired(accounts, store, obs, n - 1, i);
      forall e | e in last ensures e.account != i {}
      forall e: ContextEvent | e.account == i ensures e in all <==> e in before {}
    }
  }
}
