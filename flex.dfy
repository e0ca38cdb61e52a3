/** Retrieval of the account balance from the Interactive Brokers Flex Web
    Service (src/api.ts): one SendRequest call, then at most MaxRetries
    GetStatement polls under doubling-with-cap backoff.

    The HTTP client and the markup parser are replaced by a script: the reply
    to the SendRequest call and the replies the successive polls would get,
    each already parsed (or marked as malformed, or as a rejected call). The
    calls made and the sleeps taken are returned as one ordered log. */
module Flex {
  import opened Outcomes
  import Config

  const MaxRetries: nat := 5
  const InitialDelayMs: nat := 1000
  const MaxDelayMs: nat := 30000

  // ---------------------------------------------------------------------------
  // Parsed documents. A child element the parser did not find and one that has
  // no usable first element both make `x[0].y` a fault, so each list of child
  // elements is a sequence and an empty one stands for an absent node.

  /** The `FlexStatementResponse` envelope: the first text of each child element
      that is present. */
  datatype StatementResponse = StatementResponse(
    status: Option<string>,
    errorCode: Option<string>,
    errorMessage: Option<string>,
    referenceCode: Option<string>)

  /** One `EquitySummaryByReportDateInBase` element, by its `currency` and
      `total` attributes. */
  datatype Entry = Entry(currency: string, total: string)

  datatype EquitySummaryInBase = EquitySummaryInBase(byReportDate: seq<Entry>)
  datatype FlexStatement = FlexStatement(equitySummaryInBase: seq<EquitySummaryInBase>)
  datatype FlexStatements = FlexStatements(flexStatement: seq<FlexStatement>)
  datatype FlexQueryResponse = FlexQueryResponse(flexStatements: seq<FlexStatements>)

  /** A parsed document, told apart by its root element. */
  datatype Document =
    | StatementResponseDoc(envelope: StatementResponse)
    | QueryResponseDoc(report: FlexQueryResponse)
    | OtherDoc

  /** What one GET to the service ends in once its body has gone through the parser. */
  datatype Reply = Delivered(doc: Document) | Malformed(reason: string) | Rejected(error: Error)

  datatype BalanceRecord = BalanceRecord(balance: real, currency: string)

  datatype Call = SendRequest(token: string, queryId: string) | GetStatement(token: string, referenceCode: string)

  datatype Event = Request(call: Call) | Sleep(ms: nat)

  /** The outcome of one retrieval and everything it did, in order. */
  datatype Run = Run(result: Result<BalanceRecord, Error>, log: seq<Event>)

  /** How one poll is classified. */
  datatype PollStep = Transient | Done(record: BalanceRecord) | Fatal(error: Error)

  // ---------------------------------------------------------------------------
  // Messages

  function DecimalDigit(d: nat): char
    requires d < 10
  {
    "0123456789"[d]
  }

  /** A natural number written in decimal, as a template literal does. */
  function NatToString(n: nat): string
    decreases n
  {
    if n < 10 then [DecimalDigit(n)] else NatToString(n / 10) + [DecimalDigit(n % 10)]
  }

  /** The failure message of SendRequest: the message part and the code part
      are each present exactly when the envelope carries that element. */
  function SendFailureMessage(errorCode: Option<string>, errorMessage: Option<string>): string
  {
    "Flex Query SendRequest failed"
      + (match errorMessage case Some(m) => ": " + m case None => "")
      + (match errorCode case Some(c) => " (Code: " + c + ")" case None => "")
  }

  function ExhaustedMessage(): string
  {
    "Failed to retrieve Flex Statement after " + NatToString(MaxRetries) + " attempts."
  }

  /** The message of the token-expired scenario: both parts present, the
      message before the code. */
  lemma TokenExpiredMessage()
    ensures SendFailureMessage(Some("1012"), Some("Token has expired.")) ==
      "Flex Query SendRequest failed: Token has expired. (Code: 1012)"
  {
    assert SendFailureMessage(Some("1012"), Some("Token has expired.")) ==
      "Flex Query SendRequest failed" + ": Token has expired." + " (Code: 1012)";
  }

  /** Each part of the SendRequest message appears exactly when its element does. */
  lemma SendFailureParts(code: string, message: string)
    ensures SendFailureMessage(None, None) == "Flex Query SendRequest failed"
    ensures SendFailureMessage(Some(code), None) == "Flex Query SendRequest failed (Code: " + code + ")"
    ensures SendFailureMessage(None, Some(message)) == "Flex Query SendRequest failed: " + message
  {
    assert "Flex Query SendRequest failed" + ": " + message == "Flex Query SendRequest failed: " + message;
    assert "Flex Query SendRequest failed" + "" + (" (Code: " + code + ")") ==
      "Flex Query SendRequest failed (Code: " + code + ")";
  }

  /** The exhaustion message names the retry bound. */
  lemma ExhaustedMessageText()
    ensures ExhaustedMessage() == "Failed to retrieve Flex Statement after 5 attempts."
  {
    assert NatToString(MaxRetries) == "5";
  }

  // ---------------------------------------------------------------------------
  // Backoff

  function Pow2(n: nat): (p: nat)
    ensures p >= 1
  {
    if n == 0 then 1 else 2 * Pow2(n - 1)
  }

  function Min(a: nat, b: nat): nat
  {
    if a < b then a else b
  }

  /** `Math.min(currentDelay * 2, MAX_DELAY_MS)` */
  function NextDelay(d: nat): nat
  {
    Min(d * 2, MaxDelayMs)
  }

  /** Reference definition of the delay slept after the transient poll number
      `i` (counting from 0): the initial delay doubled i times, capped. */
  function DelayAt(i: nat): nat
  {
    Min(InitialDelayMs * Pow2(i), MaxDelayMs)
  }

  lemma NextDelayAt(i: nat)
    ensures NextDelay(DelayAt(i)) == DelayAt(i + 1)
  {
    assert Pow2(i + 1) == 2 * Pow2(i);
  }

  /** Delays never shrink and never exceed the cap. */
  lemma {:induction false} DelayMonotone(i: nat, j: nat)
    requires i <= j
    ensures DelayAt(i) <= DelayAt(j) <= MaxDelayMs
    decreases j - i
  {
    if i < j {
      DelayMonotone(i, j - 1);
      NextDelayAt(j - 1);
    }
  }

  /** The delays slept after the transient polls numbered i .. n-1. */
  function Schedule(i: nat, n: nat): seq<nat>
    decreases n - i
  {
    if i >= n then [] else [DelayAt(i)] + Schedule(i + 1, n)
  }

  lemma {:induction false} ScheduleAt(i: nat, n: nat, a: nat)
    requires i + a < n
    ensures |Schedule(i, n)| == n - i
    ensures Schedule(i, n)[a] == DelayAt(i + a)
    decreases n - i
  {
    if a > 0 {
      ScheduleAt(i + 1, n, a - 1);
    } else if i + 1 < n {
      ScheduleAt(i + 1, n, 0);
    } else {
      assert Schedule(i + 1, n) == [];
    }
  }

  /** Every prefix of the schedule from the first poll on is non-decreasing and
      bounded by MaxDelayMs. */
  lemma ScheduleSortedAndCapped(n: nat)
    ensures |Schedule(0, n)| == n
    ensures forall a, b :: 0 <= a <= b < n ==> Schedule(0, n)[a] <= Schedule(0, n)[b] <= MaxDelayMs
  {
    if n > 0 {
      ScheduleAt(0, n, 0);
    } else {
      assert Schedule(0, n) == [];
    }
    forall a, b | 0 <= a <= b < n
      ensures Schedule(0, n)[a] <= Schedule(0, n)[b] <= MaxDelayMs
    {
      ScheduleAt(0, n, a);
      ScheduleAt(0, n, b);
      DelayMonotone(a, b);
    }
  }

  /** The five delays of a fully exhausted retrieval. */
  lemma FullSchedule()
    ensures Schedule(0, MaxRetries) == [1000, 2000, 4000, 8000, 16000]
  {
    assert Pow2(4) == 16;
    assert Schedule(5, 5) == [];
    assert Schedule(4, 5) == [16000];
    assert Schedule(3, 5) == [8000, 16000];
    assert Schedule(2, 5) == [4000, 8000, 16000];
    assert Schedule(1, 5) == [2000, 4000, 8000, 16000];
  }

  // ---------------------------------------------------------------------------
  // Classification of replies

  /** The node path FlexQueryResponse, FlexStatements[0], FlexStatement[0],
      EquitySummaryInBase[0] is present. */
  predicate HasSummaryPath(doc: Document)
  {
    && doc.QueryResponseDoc?
    && doc.report.flexStatements != []
    && doc.report.flexStatements[0].flexStatement != []
    && doc.report.flexStatements[0].flexStatement[0].equitySummaryInBase != []
  }

  /** EquitySummaryByReportDateInBase under that path. */
  function ReportDateEntries(doc: Document): seq<Entry>
    requires HasSummaryPath(doc)
  {
    doc.report.flexStatements[0].flexStatement[0].equitySummaryInBase[0].byReportDate
  }

  /** The last element of EquitySummaryByReportDateInBase under the node path.
      Any missing node is a field-access fault. */
  function LastEquityEntry(doc: Document): (r: Result<Entry, Error>)
    ensures r.Failure? ==> r.error == FieldAccess
    // success exactly when the whole node path is present, with the last entry
    ensures r.Success? <==> HasSummaryPath(doc) && ReportDateEntries(doc) != []
    ensures r.Success? ==> r.value == ReportDateEntries(doc)[|ReportDateEntries(doc)| - 1]
  {
    match doc
    case QueryResponseDoc(report) =>
      if report.flexStatements == [] then Failure(FieldAccess)
      else
        var statements := report.flexStatements[0].flexStatement;
        if statements == [] then Failure(FieldAccess)
        else
          var summaries := statements[0].equitySummaryInBase;
          if summaries == [] then Failure(FieldAccess)
          else
            var entries := summaries[0].byReportDate;
            if entries == [] then Failure(FieldAccess)
            else Success(entries[|entries| - 1])
    case _ => Failure(FieldAccess)
  }

  /** A rejection the loop retries: an HTTP-client error with a 404 response or
      the ERR_NETWORK code. */
  predicate IsTransientError(e: Error)
  {
    e.Http? && (e.status == Some(404) || e.code == Some("ERR_NETWORK"))
  }

  /** An envelope that is present with a Status of Fail. */
  predicate IsFailEnvelope(doc: Document)
  {
    doc.StatementResponseDoc? && doc.envelope.status == Some("Fail")
  }

  /** One poll: the body of the inner `try` and its `catch`. */
  function Classify(reply: Reply, parseFloat: string -> real): (s: PollStep)
    ensures s.Transient? <==>
      (reply.Delivered? && IsFailEnvelope(reply.doc)) || (reply.Rejected? && IsTransientError(reply.error))
    ensures reply.Rejected? && !IsTransientError(reply.error) ==> s == Fatal(reply.error)
    ensures reply.Malformed? ==> s == Fatal(XmlParse(reply.reason))
    ensures s.Done? ==>
      reply.Delivered? && LastEquityEntry(reply.doc).Success?
      && var last := LastEquityEntry(reply.doc).value;
         s.record == BalanceRecord(parseFloat(last.total), last.currency)
    ensures reply.Delivered? && !IsFailEnvelope(reply.doc) && LastEquityEntry(reply.doc).Failure? ==>
      s == Fatal(FieldAccess)
    ensures reply.Delivered? && !IsFailEnvelope(reply.doc) && LastEquityEntry(reply.doc).Success? ==>
      var last := LastEquityEntry(reply.doc).value;
      s == Done(BalanceRecord(parseFloat(last.total), last.currency))
  {
    match reply
    case Rejected(e) => if IsTransientError(e) then Transient else Fatal(e)
    case Malformed(reason) => Fatal(XmlParse(reason))
    case Delivered(doc) =>
      if IsFailEnvelope(doc) then Transient
      else
        match LastEquityEntry(doc)
        case Failure(e) => Fatal(e)
        case Success(latest) => Done(BalanceRecord(parseFloat(latest.total), latest.currency))
  }

  /** The SendRequest phase: the reference code on success, otherwise the error
      the call fails with. */
  function Initiate(reply: Reply): (r: Result<string, Error>)
    ensures reply.Rejected? ==> r == Failure(reply.error)
    ensures reply.Malformed? ==> r == Failure(XmlParse(reply.reason))
    ensures reply.Delivered? && reply.doc.StatementResponseDoc? && reply.doc.envelope.status.Some?
            && reply.doc.envelope.status.value != "Success" ==>
      r == Failure(Thrown(SendFailureMessage(reply.doc.envelope.errorCode, reply.doc.envelope.errorMessage)))
    ensures r.Success? <==>
      && reply.Delivered? && reply.doc.StatementResponseDoc?
      && reply.doc.envelope.status == Some("Success") && reply.doc.envelope.referenceCode.Some?
    ensures r.Success? ==> r.value == reply.doc.envelope.referenceCode.value
    // a missing envelope, Status or ReferenceCode is a field-access fault
    ensures reply.Delivered? && r.Failure?
            && !(reply.doc.StatementResponseDoc? && reply.doc.envelope.status.Some?
                 && reply.doc.envelope.status.value != "Success") ==>
      r.error == FieldAccess
  {
    match reply
    case Rejected(e) => Failure(e)
    case Malformed(reason) => Failure(XmlParse(reason))
    case Delivered(doc) =>
      if !doc.StatementResponseDoc? then Failure(FieldAccess)
      else
        var envelope := doc.envelope;
        match envelope.status
        case None => Failure(FieldAccess)
        case Some(status) =>
          if status != "Success" then
            Failure(Thrown(SendFailureMessage(envelope.errorCode, envelope.errorMessage)))
          else
            match envelope.referenceCode
            case None => Failure(FieldAccess)
            case Some(referenceCode) => Success(referenceCode)
  }

  // ---------------------------------------------------------------------------
  // Reference definition of a retrieval

  /** The polling loop from attempt `i` on, with `delay` to sleep on the next
      transient outcome. */
  function PollLoop(token: string, referenceCode: string, polls: seq<Reply>, parseFloat: string -> real,
                    i: nat, delay: nat): Run
    requires |polls| >= MaxRetries
    decreases MaxRetries - i
  {
    if i >= MaxRetries then Run(Failure(Thrown(ExhaustedMessage())), [])
    else
      var poll := Request(GetStatement(token, referenceCode));
      match Classify(polls[i], parseFloat)
      case Transient =>
        var rest := PollLoop(token, referenceCode, polls, parseFloat, i + 1, NextDelay(delay));
        Run(rest.result, [poll, Sleep(delay)] + rest.log)
      case Done(record) => Run(Success(record), [poll])
      case Fatal(e) => Run(Failure(e), [poll])
  }

  /** One unfolding of the loop at attempt `i < MaxRetries`, by the poll's class. */
  lemma PollLoopStep(token: string, referenceCode: string, polls: seq<Reply>, parseFloat: string -> real,
                     i: nat, delay: nat, step: PollStep)
    requires |polls| >= MaxRetries && i < MaxRetries
    requires step == Classify(polls[i], parseFloat)
    ensures var run := PollLoop(token, referenceCode, polls, parseFloat, i, delay);
      var poll := Request(GetStatement(token, referenceCode));
      && (step.Transient? ==>
            var rest := PollLoop(token, referenceCode, polls, parseFloat, i + 1, NextDelay(delay));
            run == Run(rest.result, [poll, Sleep(delay)] + rest.log))
      && (step.Done? ==> run == Run(Success(step.record), [poll]))
      && (step.Fatal? ==> run == Run(Failure(step.error), [poll]))
  {
  }

  /** getAccountBalance as a function of its script. */
  function Retrieve(config: Config.Config, send: Reply, polls: seq<Reply>, parseFloat: string -> real): Run
    requires |polls| >= MaxRetries
  {
    var token := config.ibkr.token;
    var initiation := Request(SendRequest(token, config.ibkr.queryId));
    match Initiate(send)
    case Failure(e) => Run(Failure(e), [initiation])
    case Success(referenceCode) =>
      var loop := PollLoop(token, referenceCode, polls, parseFloat, 0, InitialDelayMs);
      Run(loop.result, [initiation] + loop.log)
  }

  // ---------------------------------------------------------------------------
  // The method

  /** getAccountBalance(config): the SendRequest call, then the polling loop. */
  method GetAccountBalance(config: Config.Config, send: Reply, polls: seq<Reply>, parseFloat: string -> real)
    returns (result: Result<BalanceRecord, Error>, log: seq<Event>)
    requires |polls| >= MaxRetries
    ensures Run(result, log) == Retrieve(config, send, polls, parseFloat)
    ensures log != [] && log[0] == Request(SendRequest(config.ibkr.token, config.ibkr.queryId))
    ensures |Calls(log)| <= 1 + MaxRetries
    ensures Sleeps(log) == Schedule(0, |Sleeps(log)|)
  {
    var token := config.ibkr.token;
    log := [Request(SendRequest(token, config.ibkr.queryId))];
    var initiation := Initiate(send);
    if initiation.Failure? {
      result := Failure(initiation.error);
    } else {
      var polled;
      result, polled := PollStatements(token, initiation.value, polls, parseFloat);
      log := log + polled;
    }
    RunBounds(config, send, polls, parseFloat, result, log);
  }

  /** The `for` loop of getAccountBalance with its two counters, `i` and
      `currentDelay`, written as a `while` loop: it returns on a completed or
      fatal poll and sleeps and retries on a transient one. */
  method PollStatements(token: string, referenceCode: string, polls: seq<Reply>, parseFloat: string -> real)
    returns (result: Result<BalanceRecord, Error>, log: seq<Event>)
    requires |polls| >= MaxRetries
    ensures Run(result, log) == PollLoop(token, referenceCode, polls, parseFloat, 0, InitialDelayMs)
  {
    log := [];
    var currentDelay := InitialDelayMs;
    var i := 0;
    while i < MaxRetries
      invariant 0 <= i <= MaxRetries
      invariant currentDelay == DelayAt(i)
      invariant var rest := PollLoop(token, referenceCode, polls, parseFloat, i, currentDelay);
        PollLoop(token, referenceCode, polls, parseFloat, 0, InitialDelayMs) == Run(rest.result, log + rest.log)
      decreases MaxRetries - i
    {
      ghost var before := log;
      log := log + [Request(GetStatement(token, referenceCode))];
      var step := Classify(polls[i], parseFloat);
      PollLoopStep(token, referenceCode, polls, parseFloat, i, currentDelay, step);
      match step {
        case Transient =>
          ghost var rest := PollLoop(token, referenceCode, polls, parseFloat, i + 1, NextDelay(currentDelay));
          log := log + [Sleep(currentDelay)];
          assert log + rest.log == before + ([Request(GetStatement(token, referenceCode)), Sleep(currentDelay)] + rest.log);
          NextDelayAt(i);
          currentDelay := Min(currentDelay * 2, MaxDelayMs);
          i := i + 1;
        case Done(record) =>
          return Success(record), log;
        case Fatal(e) =>
          return Failure(e), log;
      }
    }
    result := Failure(Thrown(ExhaustedMessage()));
  }

  // ---------------------------------------------------------------------------
  // Projections of the log

  function Calls(log: seq<Event>): seq<Call>
  {
    if log == [] then []
    else (if log[0].Request? then [log[0].call] else []) + Calls(log[1..])
  }

  function Sleeps(log: seq<Event>): seq<nat>
  {
    if log == [] then []
    else (if log[0].Sleep? then [log[0].ms] else []) + Sleeps(log[1..])
  }

  lemma {:induction false} ProjectionsAppend(a: seq<Event>, b: seq<Event>)
    ensures Calls(a + b) == Calls(a) + Calls(b)
    ensures Sleeps(a + b) == Sleeps(a) + Sleeps(b)
  {
    CallsAppend(a, b);
    SleepsAppend(a, b);
  }

  lemma {:induction false} CallsAppend(a: seq<Event>, b: seq<Event>)
    ensures Calls(a + b) == Calls(a) + Calls(b)
    decreases |a|
  {
    if a == [] {
      assert a + b == b;
    } else {
      assert (a + b)[0] == a[0];
      assert (a + b)[1..] == a[1..] + b;
      CallsAppend(a[1..], b);
    }
  }

  lemma {:induction false} SleepsAppend(a: seq<Event>, b: seq<Event>)
    ensures Sleeps(a + b) == Sleeps(a) + Sleeps(b)
    decreases |a|
  {
    if a == [] {
      assert a + b == b;
    } else {
      assert (a + b)[0] == a[0];
      assert (a + b)[1..] == a[1..] + b;
      SleepsAppend(a[1..], b);
    }
  }

  /** The log of the transient polls numbered i .. n-1: each a GetStatement
      call followed by its sleep. */
  function Attempts(token: string, referenceCode: string, i: nat, n: nat): seq<Event>
    decreases n - i
  {
    if i >= n then []
    else [Request(GetStatement(token, referenceCode)), Sleep(DelayAt(i))] + Attempts(token, referenceCode, i + 1, n)
  }

  lemma {:induction false} AttemptsProjections(token: string, referenceCode: string, i: nat, n: nat)
    requires i <= n
    ensures |Calls(Attempts(token, referenceCode, i, n))| == n - i
    ensures forall c :: c in Calls(Attempts(token, referenceCode, i, n)) ==> c == GetStatement(token, referenceCode)
    ensures Sleeps(Attempts(token, referenceCode, i, n)) == Schedule(i, n)
    decreases n - i
  {
    if i < n {
      var head: seq<Event> := [Request(GetStatement(token, referenceCode)), Sleep(DelayAt(i))];
      var tail := Attempts(token, referenceCode, i + 1, n);
      AttemptsProjections(token, referenceCode, i + 1, n);
      ProjectionsAppend(head, tail);
      assert head[1..][1..] == [];
      assert Calls(head) == [GetStatement(token, referenceCode)];
      assert Sleeps(head) == [DelayAt(i)];
    }
  }

  // ---------------------------------------------------------------------------
  // Properties of a retrieval

  /** The first attempt from `i` on whose reply is not transient, or
      MaxRetries if there is none. */
  function FirstNonTransient(polls: seq<Reply>, parseFloat: string -> real, i: nat): (k: nat)
    requires |polls| >= MaxRetries
    decreases MaxRetries - i
  {
    if i >= MaxRetries then MaxRetries
    else if !Classify(polls[i], parseFloat).Transient? then i
    else FirstNonTransient(polls, parseFloat, i + 1)
  }

  lemma {:induction false} FirstNonTransientIsFirst(polls: seq<Reply>, parseFloat: string -> real, i: nat)
    requires |polls| >= MaxRetries
    requires i <= MaxRetries
    ensures var k := FirstNonTransient(polls, parseFloat, i);
      && i <= k <= MaxRetries
      && (forall j :: i <= j < k ==> Classify(polls[j], parseFloat).Transient?)
      && (k < MaxRetries ==> !Classify(polls[k], parseFloat).Transient?)
    decreases MaxRetries - i
  {
    if i < MaxRetries && Classify(polls[i], parseFloat).Transient? {
      FirstNonTransientIsFirst(polls, parseFloat, i + 1);
    }
  }

  /** A run of transient polls from attempt i to attempt n-1 contributes
      exactly their calls and sleeps, and hands over to attempt n with the
      delay that belongs to it. */
  lemma {:induction false} TransientStretch(token: string, referenceCode: string, polls: seq<Reply>,
                                            parseFloat: string -> real, i: nat, n: nat)
    requires |polls| >= MaxRetries
    requires i <= n <= MaxRetries
    requires forall j :: i <= j < n ==> Classify(polls[j], parseFloat).Transient?
    ensures var rest := PollLoop(token, referenceCode, polls, parseFloat, n, DelayAt(n));
      PollLoop(token, referenceCode, polls, parseFloat, i, DelayAt(i)) ==
        Run(rest.result, Attempts(token, referenceCode, i, n) + rest.log)
    decreases n - i
  {
    if i < n {
      NextDelayAt(i);
      TransientStretch(token, referenceCode, polls, parseFloat, i + 1, n);
      var rest := PollLoop(token, referenceCode, polls, parseFloat, n, DelayAt(n));
      var head: seq<Event> := [Request(GetStatement(token, referenceCode)), Sleep(DelayAt(i))];
      assert head + (Attempts(token, referenceCode, i + 1, n) + rest.log) ==
        (head + Attempts(token, referenceCode, i + 1, n)) + rest.log;
    } else {
      assert Attempts(token, referenceCode, i, n) + PollLoop(token, referenceCode, polls, parseFloat, n, DelayAt(n)).log
        == PollLoop(token, referenceCode, polls, parseFloat, n, DelayAt(n)).log;
    }
  }

  /** The result decided at attempt k, the first non-transient one: its
      record or its error, or the exhaustion error when k is MaxRetries. */
  function Verdict(polls: seq<Reply>, parseFloat: string -> real, k: nat): Result<BalanceRecord, Error>
    requires |polls| >= MaxRetries
  {
    if k >= MaxRetries then Failure(Thrown(ExhaustedMessage()))
    else
      match Classify(polls[k], parseFloat)
      case Done(record) => Success(record)
      case Fatal(e) => Failure(e)
      case Transient => Failure(Thrown(ExhaustedMessage()))
  }

  /** The deciding poll, if there is one before the bound. */
  function Decider(token: string, referenceCode: string, k: nat): seq<Event>
  {
    if k >= MaxRetries then [] else [Request(GetStatement(token, referenceCode))]
  }

  lemma PollLoopDecides(token: string, referenceCode: string, polls: seq<Reply>, parseFloat: string -> real,
                        k: nat, delay: nat)
    requires |polls| >= MaxRetries
    requires k <= MaxRetries
    requires k < MaxRetries ==> !Classify(polls[k], parseFloat).Transient?
    ensures PollLoop(token, referenceCode, polls, parseFloat, k, delay) ==
      Run(Verdict(polls, parseFloat, k), Decider(token, referenceCode, k))
  {
  }

  /** Every retrieval whose SendRequest succeeds takes one of two shapes: k
      transient polls followed by the (k+1)-th poll, which decides the result,
      or MaxRetries transient polls followed by the exhaustion error. */
  lemma PollShape(config: Config.Config, send: Reply, polls: seq<Reply>, parseFloat: string -> real)
    requires |polls| >= MaxRetries
    requires Initiate(send).Success?
    ensures var token := config.ibkr.token;
      var referenceCode := Initiate(send).value;
      var k := FirstNonTransient(polls, parseFloat, 0);
      Retrieve(config, send, polls, parseFloat) ==
        Run(Verdict(polls, parseFloat, k),
            [Request(SendRequest(token, config.ibkr.queryId))]
              + Attempts(token, referenceCode, 0, k) + Decider(token, referenceCode, k))
  {
    var token := config.ibkr.token;
    var referenceCode := Initiate(send).value;
    var k := FirstNonTransient(polls, parseFloat, 0);
    FirstNonTransientIsFirst(polls, parseFloat, 0);
    TransientStretch(token, referenceCode, polls, parseFloat, 0, k);
    PollLoopDecides(token, referenceCode, polls, parseFloat, k, DelayAt(k));
    assert DelayAt(0) == InitialDelayMs;
    var initiation := [Request(SendRequest(token, config.ibkr.queryId))];
    assert initiation + (Attempts(token, referenceCode, 0, k) + Decider(token, referenceCode, k)) ==
      initiation + Attempts(token, referenceCode, 0, k) + Decider(token, referenceCode, k);
  }

  /** What holds of every retrieval: the first call is the one SendRequest;
      every later call is a GetStatement with the token and the reference code
      SendRequest returned; at most 1 + MaxRetries calls in all; the sleeps
      are a prefix of the schedule, so non-decreasing and capped. */
  lemma RetrieveShape(config: Config.Config, send: Reply, polls: seq<Reply>, parseFloat: string -> real)
    requires |polls| >= MaxRetries
    ensures var run := Retrieve(config, send, polls, parseFloat);
      && run.log != [] && run.log[0] == Request(SendRequest(config.ibkr.token, config.ibkr.queryId))
      && Calls(run.log) != [] && Calls(run.log)[0] == SendRequest(config.ibkr.token, config.ibkr.queryId)
      && (Initiate(send).Failure? ==> run == Run(Failure(Initiate(send).error), run.log) && |run.log| == 1)
      && (forall c :: c in Calls(run.log)[1..] ==>
            Initiate(send).Success? && c == GetStatement(config.ibkr.token, Initiate(send).value))
      && |Calls(run.log)| <= 1 + MaxRetries
      && Sleeps(run.log) == Schedule(0, |Sleeps(run.log)|)
  {
    var run := Retrieve(config, send, polls, parseFloat);
    var initiation: seq<Event> := [Request(SendRequest(config.ibkr.token, config.ibkr.queryId))];
    assert Calls(initiation) == [SendRequest(config.ibkr.token, config.ibkr.queryId)];
    assert Sleeps(initiation) == [];
    if Initiate(send).Failure? {
      assert run.log == initiation;
      assert Schedule(0, 0) == [];
    } else {
      var token := config.ibkr.token;
      var referenceCode := Initiate(send).value;
      var k := FirstNonTransient(polls, parseFloat, 0);
      FirstNonTransientIsFirst(polls, parseFloat, 0);
      LogProjections(config, send, polls, parseFloat, k);
      ScheduleSortedAndCapped(k);
    }
  }

  /** The bounds getAccountBalance promises, for any run equal to the reference retrieval. */
  lemma RunBounds(config: Config.Config, send: Reply, polls: seq<Reply>, parseFloat: string -> real,
                  result: Result<BalanceRecord, Error>, log: seq<Event>)
    requires |polls| >= MaxRetries
    requires Run(result, log) == Retrieve(config, send, polls, parseFloat)
    ensures log != [] && log[0] == Request(SendRequest(config.ibkr.token, config.ibkr.queryId))
    ensures |Calls(log)| <= 1 + MaxRetries
    ensures Sleeps(log) == Schedule(0, |Sleeps(log)|)
  {
    RetrieveShape(config, send, polls, parseFloat);
  }

  /** SendRequest failing ends the retrieval with that failure after the one
      call: no poll, no sleep. With a Status other than Success the error is
      the SendRequest-failed message built from the envelope. */
  lemma InitiationFailureStops(config: Config.Config, send: Reply, polls: seq<Reply>, parseFloat: string -> real)
    requires |polls| >= MaxRetries
    requires send.Delivered? && send.doc.StatementResponseDoc?
    requires send.doc.envelope.status.Some? && send.doc.envelope.status.value != "Success"
    ensures Retrieve(config, send, polls, parseFloat) ==
      Run(Failure(Thrown(SendFailureMessage(send.doc.envelope.errorCode, send.doc.envelope.errorMessage))),
          [Request(SendRequest(config.ibkr.token, config.ibkr.queryId))])
  {
  }

  /** MaxRetries transient polls exhaust the retrieval: the exhaustion error,
      six calls in all, one sleep after every transient poll including the
      last, of 1000, 2000, 4000, 8000 and 16000 ms. */
  lemma ExhaustedAfterFiveTransients(config: Config.Config, send: Reply, polls: seq<Reply>, parseFloat: string -> real)
    requires |polls| >= MaxRetries
    requires Initiate(send).Success?
    requires forall j :: 0 <= j < MaxRetries ==> Classify(polls[j], parseFloat).Transient?
    ensures var run := Retrieve(config, send, polls, parseFloat);
      && run.result == Failure(Thrown("Failed to retrieve Flex Statement after 5 attempts."))
      && |Calls(run.log)| == 6
      && Sleeps(run.log) == [1000, 2000, 4000, 8000, 16000]
  {
    RetrieveCounts(config, send, polls, parseFloat, MaxRetries);
    ExhaustedMessageText();
    FullSchedule();
  }

  /** k transient polls (k < MaxRetries) and then a completed report: the
      record of the report, 1 + k + 1 calls, the first k delays of the schedule. */
  lemma SucceedsAfterTransients(config: Config.Config, send: Reply, polls: seq<Reply>, parseFloat: string -> real,
                                k: nat, record: BalanceRecord)
    requires |polls| >= MaxRetries
    requires Initiate(send).Success?
    requires k < MaxRetries
    requires forall j :: 0 <= j < k ==> Classify(polls[j], parseFloat).Transient?
    requires Classify(polls[k], parseFloat) == Done(record)
    ensures var run := Retrieve(config, send, polls, parseFloat);
      && run.result == Success(record)
      && |Calls(run.log)| == 1 + k + 1
      && Sleeps(run.log) == Schedule(0, k)
  {
    RetrieveCounts(config, send, polls, parseFloat, k);
  }

  /** A fatal poll after k transient ones ends the retrieval with its error,
      unchanged, after 1 + k + 1 calls: nothing more is polled. */
  lemma FatalStopsPolling(config: Config.Config, send: Reply, polls: seq<Reply>, parseFloat: string -> real,
                          k: nat, e: Error)
    requires |polls| >= MaxRetries
    requires Initiate(send).Success?
    requires k < MaxRetries
    requires forall j :: 0 <= j < k ==> Classify(polls[j], parseFloat).Transient?
    requires Classify(polls[k], parseFloat) == Fatal(e)
    ensures var run := Retrieve(config, send, polls, parseFloat);
      && run.result == Failure(e)
      && |Calls(run.log)| == 1 + k + 1
      && Sleeps(run.log) == Schedule(0, k)
  {
    RetrieveCounts(config, send, polls, parseFloat, k);
  }

  /** The counts behind the three lemmas above, for the first non-transient
      attempt k. */
  lemma RetrieveCounts(config: Config.Config, send: Reply, polls: seq<Reply>, parseFloat: string -> real, k: nat)
    requires |polls| >= MaxRetries
    requires Initiate(send).Success?
    requires k <= MaxRetries
    requires forall j :: 0 <= j < k ==> Classify(polls[j], parseFloat).Transient?
    requires k < MaxRetries ==> !Classify(polls[k], parseFloat).Transient?
    ensures var run := Retrieve(config, send, polls, parseFloat);
      && |Calls(run.log)| == 1 + k + (if k < MaxRetries then 1 else 0)
      && Sleeps(run.log) == Schedule(0, k)
      && run.result == Verdict(polls, parseFloat, k)
  {
    FirstNonTransientAt(polls, parseFloat, 0, k);
    PollShape(config, send, polls, parseFloat);
    LogProjections(config, send, polls, parseFloat, k);
  }

  /** The first non-transient attempt from i on is k when the attempts i .. k-1
      are transient and attempt k (if before the bound) is not. */
  lemma {:induction false} FirstNonTransientAt(polls: seq<Reply>, parseFloat: string -> real, i: nat, k: nat)
    requires |polls| >= MaxRetries
    requires i <= k <= MaxRetries
    requires forall j :: i <= j < k ==> Classify(polls[j], parseFloat).Transient?
    requires k < MaxRetries ==> !Classify(polls[k], parseFloat).Transient?
    ensures FirstNonTransient(polls, parseFloat, i) == k
    decreases k - i
  {
    if i < k {
      FirstNonTransientAt(polls, parseFloat, i + 1, k);
    }
  }

  /** The calls and the sleeps of a log made of the SendRequest call, k
      transient attempts and the deciding poll (none at the bound). */
  lemma ShapeProjections(token: string, queryId: string, referenceCode: string, k: nat)
    requires k <= MaxRetries
    ensures var log := [Request(SendRequest(token, queryId))]
                         + Attempts(token, referenceCode, 0, k) + Decider(token, referenceCode, k);
      && Calls(log) != [] && Calls(log)[0] == SendRequest(token, queryId)
      && |Calls(log)| == 1 + k + (if k < MaxRetries then 1 else 0)
      && (forall c :: c in Calls(log)[1..] ==> c == GetStatement(token, referenceCode))
      && Sleeps(log) == Schedule(0, k)
  {
    var initiation: seq<Event> := [Request(SendRequest(token, queryId))];
    var attempts := Attempts(token, referenceCode, 0, k);
    var tail := Decider(token, referenceCode, k);
    var log := initiation + attempts + tail;
    AttemptsProjections(token, referenceCode, 0, k);
    ProjectionsAppend(initiation, attempts);
    ProjectionsAppend(initiation + attempts, tail);
    assert Calls(initiation) == [SendRequest(token, queryId)];
    assert Sleeps(initiation) == [];
    var callsA := Calls(attempts);
    var callsT := Calls(tail);
    assert callsT == if k < MaxRetries then [GetStatement(token, referenceCode)] else [];
    assert Sleeps(tail) == [];
    assert Calls(log) == [SendRequest(token, queryId)] + (callsA + callsT);
    assert Calls(log)[1..] == callsA + callsT;
    forall c | c in callsA + callsT
      ensures c == GetStatement(token, referenceCode)
    {
      assert c in callsA || c in callsT;
    }
  }

  /** The calls and the sleeps of a retrieval whose SendRequest succeeded and
      whose first non-transient attempt is k. */
  lemma LogProjections(config: Config.Config, send: Reply, polls: seq<Reply>, parseFloat: string -> real, k: nat)
    requires |polls| >= MaxRetries
    requires Initiate(send).Success?
    requires k == FirstNonTransient(polls, parseFloat, 0) <= MaxRetries
    ensures var log := Retrieve(config, send, polls, parseFloat).log;
      var token := config.ibkr.token;
      && Calls(log) != [] && Calls(log)[0] == SendRequest(token, config.ibkr.queryId)
      && |Calls(log)| == 1 + k + (if k < MaxRetries then 1 else 0)
      && (forall c :: c in Calls(log)[1..] ==> c == GetStatement(token, Initiate(send).value))
      && Sleeps(log) == Schedule(0, k)
  {
    PollShape(config, send, polls, parseFloat);
    ShapeProjections(config.ibkr.token, config.ibkr.queryId, Initiate(send).value, k);
  }

  /** The balance comes from the last per-date entry in document order,
      however many entries precede it; only the first element of each
      enclosing list is read, whatever follows it. */
  lemma LastEntryWins(earlier: seq<Entry>, last: Entry, parseFloat: string -> real,
                      moreSummaries: seq<EquitySummaryInBase>, moreStatements: seq<FlexStatement>,
                      moreLists: seq<FlexStatements>)
    ensures var doc := QueryResponseDoc(FlexQueryResponse([FlexStatements([FlexStatement(
                         [EquitySummaryInBase(earlier + [last])] + moreSummaries)] + moreStatements)] + moreLists));
      Classify(Delivered(doc), parseFloat) == Done(BalanceRecord(parseFloat(last.total), last.currency))
  {
  }

  /** A report whose first FlexStatement has no EquitySummaryInBase is a fatal
      field-access fault, whatever else the report holds, and so is an
      envelope with any Status but Fail. */
  lemma MissingNodesAreFatal(parseFloat: string -> real, envelope: StatementResponse,
                             report: FlexQueryResponse)
    requires envelope.status != Some("Fail")
    requires report.flexStatements != [] && report.flexStatements[0].flexStatement != []
    requires report.flexStatements[0].flexStatement[0].equitySummaryInBase == []
    ensures Classify(Delivered(QueryResponseDoc(report)), parseFloat) == Fatal(FieldAccess)
    ensures Classify(Delivered(StatementResponseDoc(envelope)), parseFloat) == Fatal(FieldAccess)
  {
  }

  /** The single-poll scenario: a report whose last entry is USD 13640.01
      yields that record after two calls and no sleep. */
  lemma FirstPollCompletes(config: Config.Config, polls: seq<Reply>, parseFloat: string -> real)
    requires |polls| >= MaxRetries
    requires parseFloat("13640.01") == 13640.01
    requires polls[0] == Delivered(QueryResponseDoc(FlexQueryResponse([FlexStatements([FlexStatement(
                           [EquitySummaryInBase([Entry("USD", "13640.01")])])])])))
    ensures var send := Delivered(StatementResponseDoc(StatementResponse(Some("Success"), None, None, Some("R1"))));
      Retrieve(config, send, polls, parseFloat) ==
        Run(Success(BalanceRecord(13640.01, "USD")),
            [Request(SendRequest(config.ibkr.token, config.ibkr.queryId)),
             Request(GetStatement(config.ibkr.token, "R1"))])
  {
    LastEntryWins([], Entry("USD", "13640.01"), parseFloat, [], [], []);
  }
}
