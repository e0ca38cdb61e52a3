/** The reconciliation step (src/budget.ts): open a ledger session, convert the
    brokerage balance into the ledger's currency when the two differ, compare it
    with the ledger balance, post at most one adjustment, close the session on
    every path.

    The ledger SDK and the currency converter are reached through a Recorder
    object that appends every call to its trace and answers from a script. */
module Budget {
  import opened Outcomes
  import Config
  import Currency
  import Flex

  const DataDir: string := "./data"

  /** Differences below this many currency units are negligible. */
  const Threshold: real := 0.01

  const PayeeName: string := "IBKR Balance Adjustment"

  datatype Transaction = Transaction(account: string, amount: int, date: string, payeeName: string, notes: string)

  // ---------------------------------------------------------------------------
  // The pure part: difference, threshold, sign and the transaction record

  /** The ledger's amount-to-minor-units conversion, as the test doubles define
      it: `Math.round(x * 100)`, which rounds halves upwards. */
  function AmountToInteger(x: real): int
  {
    (x * 100.0 + 0.5).Floor
  }

  /** The ledger's minor-units-to-amount conversion, as the test doubles define it. */
  function IntegerToAmount(n: int): real
  {
    n as real / 100.0
  }

  function Abs(x: real): real
  {
    if x < 0.0 then -x else x
  }

  /** `iso.split('T')[0]`: the text before the first `T`. */
  function DatePart(iso: string): (d: string)
    ensures d <= iso
    ensures 'T' !in d
    ensures |d| < |iso| ==> iso[|d|] == 'T'
  {
    if iso == [] || iso[0] == 'T' then [] else [iso[0]] + DatePart(iso[1..])
  }

  function EndsWith(s: string, suffix: string): bool
  {
    |suffix| <= |s| && s[|s| - |suffix|..] == suffix
  }

  function Notes(deposit: bool): string
  {
    "Balance adjustment from Interactive Brokers (" + (if deposit then "Deposit" else "Withdrawal") + ")"
  }

  lemma NotesKind(deposit: bool)
    ensures EndsWith(Notes(deposit), "(Deposit)") <==> deposit
    ensures EndsWith(Notes(deposit), "(Withdrawal)") <==> !deposit
  {
    var s := Notes(deposit);
    if deposit {
      assert s[|s| - 9..] == "(Deposit)";
      assert s[|s| - 12..][0] == 'r';
    } else {
      assert s[|s| - 12..] == "(Withdrawal)";
      assert s[|s| - 9..][0] == 't';
    }
  }

  /** The adjustment for a (converted) balance against the ledger balance in
      minor units, on the day of the timestamp `now`. */
  function Adjustment(balance: real, ledgerInteger: int, accountId: string, now: string): (t: Option<Transaction>)
    ensures var difference := balance - IntegerToAmount(ledgerInteger);
      && (t.None? <==> Abs(difference) < Threshold)
      && (t.Some? ==>
            && t.value.account == accountId
            && t.value.amount == AmountToInteger(difference)
            && t.value.date == DatePart(now)
            && t.value.payeeName == PayeeName
            && t.value.notes == "Balance adjustment from Interactive Brokers ("
                                + (if difference > 0.0 then "Deposit" else "Withdrawal") + ")"
            && (EndsWith(t.value.notes, "(Deposit)") <==> difference > 0.0)
            && (EndsWith(t.value.notes, "(Withdrawal)") <==> difference <= 0.0))
  {
    var difference := balance - IntegerToAmount(ledgerInteger);
    if Abs(difference) < Threshold then None
    else
      NotesKind(difference > 0.0);
      Some(Transaction(accountId, AmountToInteger(difference), DatePart(now), PayeeName, Notes(difference > 0.0)))
  }

  /** A posted adjustment is never of zero minor units, and its sign is that of
      the difference: at least one unit for a deposit, at most minus one for a
      withdrawal. */
  lemma AdjustmentAmountSign(balance: real, ledgerInteger: int, accountId: string, now: string)
    requires Adjustment(balance, ledgerInteger, accountId, now).Some?
    ensures var difference := balance - IntegerToAmount(ledgerInteger);
      var amount := Adjustment(balance, ledgerInteger, accountId, now).value.amount;
      && (difference > 0.0 ==> amount >= 1)
      && (difference <= 0.0 ==> amount <= -1)
  {
    var difference := balance - IntegerToAmount(ledgerInteger);
    var x := difference * 100.0 + 0.5;
    if difference > 0.0 {
      assert difference >= 0.01;
      assert x >= 1.5;
      assert x.Floor >= 1;
    } else {
      assert difference <= -0.01;
      assert x <= -0.5;
      assert x.Floor <= -1;
    }
  }

  // ---------------------------------------------------------------------------
  // Collaborators

  /** One call the reconciliation makes, to the ledger SDK or to the converter. */
  datatype Step =
    | Init(serverUrl: string, password: string, dataDir: string)
    | DownloadBudget(budgetId: string)
    | ConvertCurrency(amount: real, from: string, to: string)
    | GetAccountBalance(accountId: string)
    | AddTransactions(accountId: string, transactions: seq<Transaction>)
    | Shutdown

  /** How each collaborator call ends: a fault for the calls that return
      nothing, the balance for the ledger read, and the environment and rate
      reply the converter works from. */
  datatype Script = Script(
    init: Option<Error>,
    download: Option<Error>,
    env: Config.Env,
    rate: Currency.RateReply,
    balance: Result<int, Error>,
    add: Option<Error>,
    shutdown: Option<Error>)

  class Recorder {
    const script: Script
    var trace: seq<Step>

    constructor (script: Script)
      ensures this.script == script && trace == []
    {
      this.script := script;
      trace := [];
    }

    method Init(serverUrl: string, password: string, dataDir: string) returns (fault: Option<Error>)
      modifies this
      ensures trace == old(trace) + [Step.Init(serverUrl, password, dataDir)]
      ensures fault == script.init
    {
      trace := trace + [Step.Init(serverUrl, password, dataDir)];
      fault := script.init;
    }

    method DownloadBudget(budgetId: string) returns (fault: Option<Error>)
      modifies this
      ensures trace == old(trace) + [Step.DownloadBudget(budgetId)]
      ensures fault == script.download
    {
      trace := trace + [Step.DownloadBudget(budgetId)];
      fault := script.download;
    }

    method ConvertCurrency(amount: real, from: string, to: string) returns (r: Result<real, Error>)
      modifies this
      ensures trace == old(trace) + [Step.ConvertCurrency(amount, from, to)]
      ensures r == Currency.ConvertCurrency(amount, from, to, script.env, script.rate).result
    {
      trace := trace + [Step.ConvertCurrency(amount, from, to)];
      r := Currency.ConvertCurrency(amount, from, to, script.env, script.rate).result;
    }

    method GetAccountBalance(accountId: string) returns (r: Result<int, Error>)
      modifies this
      ensures trace == old(trace) + [Step.GetAccountBalance(accountId)]
      ensures r == script.balance
    {
      trace := trace + [Step.GetAccountBalance(accountId)];
      r := script.balance;
    }

    method AddTransactions(accountId: string, transactions: seq<Transaction>) returns (fault: Option<Error>)
      modifies this
      ensures trace == old(trace) + [Step.AddTransactions(accountId, transactions)]
      ensures fault == script.add
    {
      trace := trace + [Step.AddTransactions(accountId, transactions)];
      fault := script.add;
    }

    method Shutdown() returns (fault: Option<Error>)
      modifies this
      ensures trace == old(trace) + [Step.Shutdown]
      ensures fault == script.shutdown
    {
      trace := trace + [Step.Shutdown];
      fault := script.shutdown;
    }
  }

  // ---------------------------------------------------------------------------
  // Reference definition of updateBudget

  /** How updateBudget ends (None: it resolves) and the calls it made. */
  datatype Outcome = Outcome(error: Option<Error>, trace: seq<Step>)

  predicate NeedsConversion(data: Flex.BalanceRecord, actual: Config.ActualSettings)
  {
    data.currency != actual.currency
  }

  /** The balance compared with the ledger: the converter's answer when the
      currencies differ, the brokerage balance itself otherwise. */
  function ConvertedBalance(data: Flex.BalanceRecord, actual: Config.ActualSettings, script: Script): Result<real, Error>
  {
    if NeedsConversion(data, actual) then
      Currency.ConvertCurrency(data.balance, data.currency, actual.currency, script.env, script.rate).result
    else Success(data.balance)
  }

  /** The `try` block of updateBudget. */
  function TryBlock(data: Flex.BalanceRecord, actual: Config.ActualSettings, script: Script, now: string): Outcome
  {
    var started := [Step.Init(actual.serverUrl, actual.serverPassword, DataDir)];
    if script.init.Some? then Outcome(script.init, started)
    else
      var downloaded := started + [Step.DownloadBudget(actual.budgetId)];
      if script.download.Some? then Outcome(script.download, downloaded)
      else
        var converting := downloaded +
          (if NeedsConversion(data, actual) then [Step.ConvertCurrency(data.balance, data.currency, actual.currency)] else []);
        match ConvertedBalance(data, actual, script)
        case Failure(e) => Outcome(Some(e), converting)
        case Success(balance) =>
          var posted := Posting(balance, actual.syncAccountId, script, now);
          Outcome(posted.error, converting + posted.trace)
  }

  /** The end of the `try` block, once the balance to compare is known: read
      the ledger balance, and post the adjustment if there is one. */
  function Posting(balance: real, accountId: string, script: Script, now: string): Outcome
  {
    var read := [Step.GetAccountBalance(accountId)];
    match script.balance
    case Failure(e) => Outcome(Some(e), read)
    case Success(ledgerInteger) =>
      match Adjustment(balance, ledgerInteger, accountId, now)
      case None => Outcome(None, read)
      case Some(t) => Outcome(script.add, read + [Step.AddTransactions(accountId, [t])])
  }

  /** updateBudget: the `try` block, then `shutdown` in `finally`, whose own
      failure would replace the pending outcome. */
  function Reconciliation(data: Flex.BalanceRecord, actual: Config.ActualSettings, script: Script, now: string): Outcome
  {
    var body := TryBlock(data, actual, script, now);
    Outcome(if script.shutdown.Some? then script.shutdown else body.error, body.trace + [Step.Shutdown])
  }

  // ---------------------------------------------------------------------------
  // The methods

  /** The `try` block, step by step, leaving at the first failure. */
  method Attempt(rec: Recorder, data: Flex.BalanceRecord, config: Config.Config, now: string)
    returns (failure: Option<Error>)
    modifies rec
    ensures rec.trace == old(rec.trace) + TryBlock(data, config.actual, rec.script, now).trace
    ensures failure == TryBlock(data, config.actual, rec.script, now).error
  {
    var actual := config.actual;
    var ibkrBalance := data.balance;
    var ibkrCurrency := data.currency;
    failure := rec.Init(actual.serverUrl, actual.serverPassword, DataDir);
    if failure.Some? {
      return;
    }
    failure := rec.DownloadBudget(actual.budgetId);
    if failure.Some? {
      return;
    }
    if ibkrCurrency != actual.currency {
      var converted := rec.ConvertCurrency(ibkrBalance, ibkrCurrency, actual.currency);
      if converted.Failure? {
        failure := Some(converted.error);
        return;
      }
      ibkrBalance := converted.value;
    }
    failure := Post(rec, ibkrBalance, actual.syncAccountId, now);
  }

  /** The ledger read and the posting of the adjustment, at the end of the `try` block. */
  method Post(rec: Recorder, balance: real, accountId: string, now: string) returns (failure: Option<Error>)
    modifies rec
    ensures rec.trace == old(rec.trace) + Posting(balance, accountId, rec.script, now).trace
    ensures failure == Posting(balance, accountId, rec.script, now).error
  {
    var current := rec.GetAccountBalance(accountId);
    if current.Failure? {
      failure := Some(current.error);
      return;
    }
    var adjustment := Adjustment(balance, current.value, accountId, now);
    if adjustment.None? {
      failure := None;
      return;
    }
    failure := rec.AddTransactions(accountId, [adjustment.value]);
  }

  /** updateBudget(ibkrData, config): the attempt, and `shutdown` whatever it ended in. */
  method UpdateBudget(rec: Recorder, data: Flex.BalanceRecord, config: Config.Config, now: string)
    returns (error: Option<Error>)
    modifies rec
    ensures rec.trace == old(rec.trace) + Reconciliation(data, config.actual, rec.script, now).trace
    ensures error == Reconciliation(data, config.actual, rec.script, now).error
  {
    var failure := Attempt(rec, data, config, now);
    var fault := rec.Shutdown();
    error := if fault.Some? then fault else failure;
  }

  // ---------------------------------------------------------------------------
  // Properties of updateBudget

  /** The position of each kind of call in the fixed order init, downloadBudget,
      convertCurrency, getAccountBalance, addTransactions, shutdown. */
  function Rank(s: Step): nat
  {
    match s
    case Init(_, _, _) => 0
    case DownloadBudget(_) => 1
    case ConvertCurrency(_, _, _) => 2
    case GetAccountBalance(_) => 3
    case AddTransactions(_, _) => 4
    case Shutdown => 5
  }

  /** Every call has a higher rank than the calls before it. */
  predicate StrictlyRanked(trace: seq<Step>)
  {
    forall i, j :: 0 <= i < j < |trace| ==> Rank(trace[i]) < Rank(trace[j])
  }

  lemma AppendHigher(trace: seq<Step>, s: Step)
    requires StrictlyRanked(trace)
    requires trace != [] ==> Rank(trace[|trace| - 1]) < Rank(s)
    ensures StrictlyRanked(trace + [s])
  {
    forall i, j | 0 <= i < j < |trace + [s]|
      ensures Rank((trace + [s])[i]) < Rank((trace + [s])[j])
    {
      if j == |trace| && i < |trace| - 1 {
        assert Rank(trace[i]) < Rank(trace[|trace| - 1]);
      }
    }
  }

  /** Two strictly ranked traces, the first ending below where the second starts,
      make a strictly ranked trace. */
  lemma ConcatHigher(first: seq<Step>, second: seq<Step>)
    requires StrictlyRanked(first) && StrictlyRanked(second)
    requires first != [] && second != [] ==> Rank(first[|first| - 1]) < Rank(second[0])
    ensures StrictlyRanked(first + second)
  {
    forall i, j | 0 <= i < j < |first + second|
      ensures Rank((first + second)[i]) < Rank((first + second)[j])
    {
      if i < |first| <= j {
        if i < |first| - 1 {
          assert Rank(first[i]) < Rank(first[|first| - 1]);
        }
        if j > |first| {
          assert Rank(second[0]) < Rank(second[j - |first|]);
        }
      }
    }
  }

  /** The end of the try block reads the ledger first, then may post; it never
      reaches shutdown. */
  lemma PostingOrdered(balance: real, accountId: string, script: Script, now: string)
    ensures var trace := Posting(balance, accountId, script, now).trace;
      && trace != [] && trace[0] == Step.GetAccountBalance(accountId)
      && StrictlyRanked(trace)
      && Rank(trace[|trace| - 1]) < 5
  {
  }

  lemma {:induction false} TryBlockOrdered(data: Flex.BalanceRecord, actual: Config.ActualSettings, script: Script, now: string)
    ensures var trace := TryBlock(data, actual, script, now).trace;
      && trace != [] && trace[0] == Step.Init(actual.serverUrl, actual.serverPassword, DataDir)
      && StrictlyRanked(trace)
      && Rank(trace[|trace| - 1]) < 5
  {
    var t0 := [Step.Init(actual.serverUrl, actual.serverPassword, DataDir)];
    if script.init.None? {
      var t1 := t0 + [Step.DownloadBudget(actual.budgetId)];
      AppendHigher(t0, Step.DownloadBudget(actual.budgetId));
      if script.download.None? {
        var t2 := t1 + (if NeedsConversion(data, actual) then [Step.ConvertCurrency(data.balance, data.currency, actual.currency)] else []);
        if NeedsConversion(data, actual) {
          AppendHigher(t1, Step.ConvertCurrency(data.balance, data.currency, actual.currency));
        } else {
          assert t2 == t1;
        }
        if ConvertedBalance(data, actual, script).Success? {
          var posted := Posting(ConvertedBalance(data, actual, script).value, actual.syncAccountId, script, now);
          PostingOrdered(ConvertedBalance(data, actual, script).value, actual.syncAccountId, script, now);
          ConcatHigher(t2, posted.trace);
        }
      }
    }
  }

  /** Calls follow the fixed order and none is made twice; shutdown is always
      made, and made last. */
  lemma CallOrder(data: Flex.BalanceRecord, actual: Config.ActualSettings, script: Script, now: string)
    ensures var trace := Reconciliation(data, actual, script, now).trace;
      && trace != [] && trace[|trace| - 1] == Step.Shutdown
      && trace[0] == Step.Init(actual.serverUrl, actual.serverPassword, DataDir)
      && StrictlyRanked(trace)
  {
    TryBlockOrdered(data, actual, script, now);
    AppendHigher(TryBlock(data, actual, script, now).trace, Step.Shutdown);
  }

  /** Shutdown happens exactly once, and its own failure is what surfaces if it
      fails; otherwise the outcome is that of the attempt, unchanged. */
  lemma ShutdownExactlyOnce(data: Flex.BalanceRecord, actual: Config.ActualSettings, script: Script, now: string)
    ensures var out := Reconciliation(data, actual, script, now);
      && multiset(out.trace)[Step.Shutdown] == 1
      && out.error == (if script.shutdown.Some? then script.shutdown else TryBlock(data, actual, script, now).error)
  {
    var body := TryBlock(data, actual, script, now);
    CallOrder(data, actual, script, now);
    TryBlockOrdered(data, actual, script, now);
    assert Step.Shutdown !in body.trace by {
      forall i | 0 <= i < |body.trace|
        ensures body.trace[i] != Step.Shutdown
      {
        if i < |body.trace| - 1 {
          assert Rank(body.trace[i]) < Rank(body.trace[|body.trace| - 1]);
        }
      }
    }
    assert multiset(body.trace + [Step.Shutdown]) == multiset(body.trace) + multiset{Step.Shutdown};
  }

  /** Matching currencies: the converter is never called. */
  lemma SameCurrencyNoConversion(data: Flex.BalanceRecord, actual: Config.ActualSettings, script: Script, now: string)
    requires data.currency == actual.currency
    ensures forall s :: s in Reconciliation(data, actual, script, now).trace ==> !s.ConvertCurrency?
  {
  }

  /** Differing currencies, once the session is open and the budget downloaded:
      the converter is called once, with the balance and the pair. If it fails
      its error is what updateBudget rejects with (unless shutdown fails), and
      the ledger is not read. */
  lemma ConversionCalledOnce(data: Flex.BalanceRecord, actual: Config.ActualSettings, script: Script, now: string)
    requires data.currency != actual.currency
    requires script.init.None? && script.download.None?
    ensures var trace := Reconciliation(data, actual, script, now).trace;
      && |trace| >= 3 && trace[2] == Step.ConvertCurrency(data.balance, data.currency, actual.currency)
      && forall i :: 0 <= i < |trace| && i != 2 ==> !trace[i].ConvertCurrency?
    ensures var conversion := Currency.ConvertCurrency(data.balance, data.currency, actual.currency, script.env, script.rate);
      var out := Reconciliation(data, actual, script, now);
      conversion.result.Failure? && script.shutdown.None? ==>
        && out.error == Some(conversion.result.error)
        && out.trace == [Step.Init(actual.serverUrl, actual.serverPassword, DataDir), Step.DownloadBudget(actual.budgetId),
                         Step.ConvertCurrency(data.balance, data.currency, actual.currency), Step.Shutdown]
  {
    CallOrder(data, actual, script, now);
  }

  /** A negligible difference: no transaction is posted, and the step resolves
      (unless shutdown fails). */
  lemma InSyncPostsNothing(data: Flex.BalanceRecord, actual: Config.ActualSettings, script: Script, now: string,
                           balance: real, ledgerInteger: int)
    requires script.init.None? && script.download.None?
    requires ConvertedBalance(data, actual, script) == Success(balance)
    requires script.balance == Success(ledgerInteger)
    requires Abs(balance - IntegerToAmount(ledgerInteger)) < Threshold
    ensures var out := Reconciliation(data, actual, script, now);
      && (forall s :: s in out.trace ==> !s.AddTransactions?)
      && out.error == script.shutdown
  {
  }

  /** A difference of at least the threshold: exactly one addTransactions call,
      for the sync account, holding the one adjustment computed from the
      converted balance. */
  lemma AdjustmentPosted(data: Flex.BalanceRecord, actual: Config.ActualSettings, script: Script, now: string,
                         balance: real, ledgerInteger: int)
    requires script.init.None? && script.download.None?
    requires ConvertedBalance(data, actual, script) == Success(balance)
    requires script.balance == Success(ledgerInteger)
    requires Abs(balance - IntegerToAmount(ledgerInteger)) >= Threshold
    ensures var out := Reconciliation(data, actual, script, now);
      var t := Adjustment(balance, ledgerInteger, actual.syncAccountId, now);
      && t.Some?
      && |out.trace| >= 2
      && out.trace[|out.trace| - 2] == Step.AddTransactions(actual.syncAccountId, [t.value])
      && (forall i :: 0 <= i < |out.trace| - 2 ==> !out.trace[i].AddTransactions?)
      && out.error == (if script.shutdown.Some? then script.shutdown else script.add)
  {
    CallOrder(data, actual, script, now);
  }
}
