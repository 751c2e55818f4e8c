// One live case from start to exit code: what an exception at any point of it does to
// the result, the exit code and the cleanup of the Gateway.
module ExecuteCase {
  import opened Accounting
  import opened Options

  datatype Exception =
    | KeyboardInterrupt
    | BudgetError
    | ConfigurationError
    | AssertionError
    | Timeout
    | OtherError
    | CleanupError

  datatype Status = Passed | Failed | Inconclusive

  datatype FailureClass = NoFailure | Budget | Configuration | Assertion | InconclusiveRun | Implementation | Recorded

  // eventCount is counts["accounted_provider_legs"].
  datatype Payload = Payload(
    status: Status,
    failureClass: FailureClass,
    physicalRequests: nat,
    eventCount: nat,
    spend: Spend)

  datatype Exit = PASSED | FAILED | CONFIGURATION | BUDGET

  datatype Limits = Limits(physicalRequests: int, billedTokens: int, billedCost: real)

  datatype Outcome<T> = Done(value: T) | Raised(error: Exception)

  // ---------------------------------------------------------------- an RPC case

  // What an RPC case observed of its turn and of its accounting.
  datatype Evidence = Evidence(
    completed: bool,
    terminal: bool,
    textChunks: nat,
    assistantMarkers: nat,
    compactions: nat,
    recordedRequests: nat,
    proxyRequests: Option<nat>,
    durableEvents: nat,
    rawSpend: Spend,
    durableSpend: Spend)

  datatype Scenario = PartialThenReset | ToolCompaction | OtherRpc

  // _run_rpc_case, from what it observed on.
  method RunRpcCase(scenario: Scenario, e: Evidence) returns (p: Payload)
    // The most of the three counts, and the join of the two accounts.
    ensures p.physicalRequests >= e.recordedRequests && p.physicalRequests >= e.durableEvents
    ensures e.proxyRequests.Some? ==> p.physicalRequests >= e.proxyRequests.value
    ensures p.physicalRequests in {e.recordedRequests, e.durableEvents} || e.proxyRequests == Some(p.physicalRequests)
    ensures p.eventCount == e.durableEvents && p.status != Inconclusive
    ensures p.failureClass == if p.status == Passed then NoFailure else Recorded
    ensures p.spend == Merge(e.rawSpend, e.durableSpend)
    ensures AtMost(e.rawSpend, p.spend) && AtMost(e.durableSpend, p.spend) && Sound(p.spend)
    // A case passes only with one durable ledger event for each physical request, and
    // with the outcome its scenario asks for.
    ensures p.status == Passed <==>
      && e.durableEvents >= e.recordedRequests
      && (e.proxyRequests.Some? ==> e.durableEvents >= e.proxyRequests.value)
      && (if scenario.PartialThenReset? then e.completed || (e.terminal && e.textChunks > 0)
          else e.completed && e.assistantMarkers >= 1)
      && (scenario.ToolCompaction? ==> e.compactions >= 1)
    ensures p.status == Passed ==> p.eventCount == p.physicalRequests
  {
    var physicalRequests := e.recordedRequests;
    if e.proxyRequests.Some? && physicalRequests < e.proxyRequests.value {
      physicalRequests := e.proxyRequests.value;
    }
    if physicalRequests < e.durableEvents { physicalRequests := e.durableEvents; }
    var accountingComplete := e.durableEvents == physicalRequests;
    var spend := Merge(e.rawSpend, e.durableSpend);
    MergeIsLeastUpperBound(e.rawSpend, e.durableSpend, spend);
    var passed := e.completed || (scenario.PartialThenReset? && e.terminal && e.textChunks > 0);
    if !scenario.PartialThenReset? && e.assistantMarkers < 1 { passed := false; }
    if scenario.ToolCompaction? && e.compactions < 1 { passed := false; }
    if !accountingComplete { passed := false; }
    p := Payload(if passed then Passed else Failed, if passed then NoFailure else Recorded,
                 physicalRequests, e.durableEvents, spend);
  }

  // _budget_was_exceeded
  predicate WithinBudget(limits: Limits, p: Payload) {
    && p.physicalRequests <= limits.physicalRequests
    && p.spend.total <= limits.billedTokens
    && p.spend.billedCost <= limits.billedCost
  }

  // ---------------------------------------------------------------- the whole case

  // What goes wrong, if anything, where: before the Gateway runs; after that and before
  // the case; while the case runs, which otherwise returns a payload; while the budget
  // is compared; while a failure is accounted for, which otherwise says what was spent.
  datatype Course = Course(
    start: Option<Exception>,
    evidence: Option<Exception>,
    run: Outcome<Payload>,
    comparison: Option<Exception>,
    accounted: Outcome<Payload>,
    cleanup: Option<Exception>)

  class Gateway {
    var running: bool
    var cleanups: nat

    constructor ()
      ensures !running && cleanups == 0
    {
      running, cleanups := false, 0;
    }

    method Start(fault: Option<Exception>) returns (o: Outcome<()>)
      modifies `running
      ensures if fault.Some? then o == Raised(fault.value) && running == old(running) else o == Done(()) && running
    {
      if fault.Some? { return Raised(fault.value); }
      running := true;
      return Done(());
    }

    method Cleanup(fault: Option<Exception>) returns (o: Outcome<()>)
      modifies this
      ensures cleanups == old(cleanups) + 1
      ensures fault.Some? ==> o == Raised(fault.value)
      ensures fault.None? ==> o == Done(()) && !running
    {
      cleanups := cleanups + 1;
      if fault.Some? { return Raised(fault.value); }
      running := false;
      return Done(());
    }
  }

  // How an exception is classified when the case goes on to a result.
  function ClassOf(e: Exception): FailureClass {
    match e
    case BudgetError => Budget
    case ConfigurationError => Configuration
    case AssertionError => Assertion
    case Timeout => InconclusiveRun
    case _ => Implementation
  }

  function ExitOf(e: Exception): Exit {
    match e
    case BudgetError => BUDGET
    case ConfigurationError => CONFIGURATION
    case _ => FAILED
  }

  // The exceptions that leave the case without a result.
  predicate Escapes(e: Exception, started: bool) {
    e.KeyboardInterrupt? || (!started && (e.BudgetError? || e.ConfigurationError?))
  }

  // _accounted_runtime_failure
  function Accounted(spent: Payload, class_: FailureClass): Payload {
    spent.(status := if class_ == Budget then Inconclusive else Failed, failureClass := class_)
  }

  // The case spent more than was left.
  predicate Overspent(limits: Limits, p: Payload) {
    || p.physicalRequests > limits.physicalRequests
    || p.spend.total > limits.billedTokens
    || p.spend.billedCost > limits.billedCost
  }

  // What a case that returned is worth.
  function Judged(limits: Limits, p: Payload): (Payload, Exit) {
    if Overspent(limits, p) then (p.(status := Inconclusive, failureClass := Budget), BUDGET)
    else (p, if p.status == Passed then PASSED else FAILED)
  }

  // What one is that an exception ended.
  function Ended(e: Exception, spent: Payload): (Payload, Exit) {
    match e
    case BudgetError => (spent.(status := Inconclusive, failureClass := Budget), BUDGET)
    case ConfigurationError => (spent.(status := Failed, failureClass := Configuration), CONFIGURATION)
    case AssertionError => (spent.(status := Failed, failureClass := Assertion), FAILED)
    case Timeout => (spent.(status := Failed, failureClass := InconclusiveRun), FAILED)
    case OtherError => (spent.(status := Failed, failureClass := Implementation), FAILED)
    case CleanupError => (spent.(status := Failed, failureClass := Implementation), FAILED)
    case KeyboardInterrupt => (spent, FAILED)
  }

  // An interrupt, and an early budget or configuration error, leave the case.
  predicate Leaves(c: Course) {
    && FirstFault(c).Some?
    && (FirstFault(c).value == KeyboardInterrupt
        || (c.start.Some? && c.start.value in {BudgetError, ConfigurationError}))
  }

  // The case itself returned before anything went wrong.
  predicate Returned(c: Course) { c.start.None? && c.evidence.None? && c.run.Done? }

  // What is raised in the try block, if anything: the first thing that goes wrong.
  function FirstFault(c: Course): Option<Exception> {
    if c.start.Some? then c.start
    else if c.evidence.Some? then c.evidence
    else if c.run.Raised? then Some(c.run.error)
    else c.comparison
  }

  // The try block: up to a payload and its exit code.
  method Attempt(limits: Limits, c: Course, gateway: Gateway)
    returns (o: Outcome<(Payload, Exit)>, returned: Option<Payload>)
    modifies gateway`running
    ensures o.Done? ==>
      var p, exit := o.value.0, o.value.1;
      && gateway.running && c.start.None? && c.evidence.None? && c.run.Done? && c.comparison.None?
      && returned == Some(p)
      && (exit == PASSED <==> p.status == Passed)
      && o.value == Judged(limits, c.run.value)
    ensures o.Raised? ==> gateway.running || c.start == Some(o.error)
    ensures returned.Some? <==> Returned(c)
    ensures o.Raised? ==> o.error in Faults(c)
    ensures o.Raised? <==> FirstFault(c).Some?
    ensures o.Raised? ==> FirstFault(c) == Some(o.error)
    ensures c.start.None? ==> gateway.running
    ensures c.start.Some? ==> o == Raised(c.start.value) && gateway.running == old(gateway.running) && returned.None?
  {
    returned := None;
    var started := gateway.Start(c.start);
    if started.Raised? { return Raised(started.error), None; }
    if c.evidence.Some? { return Raised(c.evidence.value), None; }
    if c.run.Raised? { return Raised(c.run.error), None; }
    var p := c.run.value;
    returned := Some(p);
    if c.comparison.Some? { return Raised(c.comparison.value), returned; }
    if !WithinBudget(limits, p) {
      p := p.(status := Inconclusive, failureClass := Budget);
      return Done((p, BUDGET)), Some(p);
    }
    return Done((p, if p.status == Passed then PASSED else FAILED)), returned;
  }

  // Everything that can be raised in the try block.
  function Faults(c: Course): set<Exception> {
    (if c.start.Some? then {c.start.value} else {})
    + (if c.evidence.Some? then {c.evidence.value} else {})
    + (if c.run.Raised? then {c.run.error} else {})
    + (if c.comparison.Some? then {c.comparison.value} else {})
  }

  // execute_case. Whatever happens, the Gateway is cleaned up once; the passing exit
  // code goes with a passing status and with nothing else.
  method Execute(limits: Limits, c: Course, gateway: Gateway) returns (o: Outcome<(Payload, Exit)>)
    requires !gateway.running
    modifies gateway
    ensures gateway.cleanups == old(gateway.cleanups) + 1
    ensures o.Done? ==>
      var p, exit := o.value.0, o.value.1;
      && (exit == PASSED <==> p.status == Passed)
      && (exit == PASSED ==>
            c.start.None? && c.evidence.None? && c.run == Done(p) && c.comparison.None? && c.cleanup.None?
            && !Overspent(limits, p) && !gateway.running)
      && (exit == BUDGET ==> p.status == Inconclusive && p.failureClass == Budget && c.cleanup.None?)
      && (exit == CONFIGURATION ==> p.status == Failed && p.failureClass == Configuration && c.cleanup.None?)
      && (c.cleanup.Some? ==> p.status == Failed && exit == FAILED && p.failureClass == Implementation)
    // Undisturbed, the payload and the budget decide.
    ensures FirstFault(c).None? && c.cleanup.None? ==> o == Done(Judged(limits, c.run.value))
    // An exception that does not leave the case becomes a result of its class, with what
    // was spent; one that accounting raises on the way takes its place.
    ensures FirstFault(c).Some? && !Leaves(c) && c.cleanup.None? ==>
      o == if c.accounted.Done? then Done(Ended(FirstFault(c).value, c.accounted.value)) else Raised(c.accounted.error)
    ensures Leaves(c) && c.cleanup.None? ==> o == Raised(FirstFault(c).value)
    // A failing cleanup marks the result, if there is one, and leaves an exception as it
    // is. Without a result its own exception replaces even an interrupt; and an interrupt
    // of the cleanup replaces everything.
    ensures c.cleanup.Some? && c.cleanup.value != KeyboardInterrupt ==>
      o == if FirstFault(c).None? then Done((c.run.value.(status := Failed, failureClass := Implementation), FAILED))
           else if !Leaves(c) && c.accounted.Done? then
             Done((c.accounted.value.(status := Failed, failureClass := Implementation), FAILED))
           else if !Returned(c) then Raised(c.cleanup.value)
           else if Leaves(c) then Raised(FirstFault(c).value)
           else Raised(c.accounted.error)
    ensures c.cleanup == Some(KeyboardInterrupt) ==> o == Raised(KeyboardInterrupt)
    ensures o.Raised? ==>
      || (c.cleanup.Some? && o.error == c.cleanup.value)
      || (o.error in Faults(c) && (o.error.KeyboardInterrupt? || (c.start == Some(o.error) && Escapes(o.error, false))))
      || (c.accounted.Raised? && o.error == c.accounted.error)
  {
    var tried, result := Attempt(limits, c, gateway);
    o := tried;
    if tried.Raised? && !Escapes(tried.error, gateway.running) {
      if c.accounted.Raised? {
        o := Raised(c.accounted.error);
      } else {
        var p := Accounted(c.accounted.value, ClassOf(tried.error));
        result := Some(p);
        o := Done((p, ExitOf(tried.error)));
      }
    }
    var cleaned := gateway.Cleanup(c.cleanup);
    if cleaned.Raised? {
      if result.None? || cleaned.error.KeyboardInterrupt? {
        o := Raised(cleaned.error);
      } else if o.Done? {
        o := Done((result.value.(status := Failed, failureClass := Implementation), FAILED));
      }
    }
  }

  // An RPC case from start to exit code, observed is what its run saw, if it came so
  // far. The passing exit code means that every physical request, however counted, has
  // its one durable ledger event, and that the accounts fit the budget.
  method ExecuteRpcCase(limits: Limits, scenario: Scenario, observed: Outcome<Evidence>, c: Course, gateway: Gateway)
    returns (o: Outcome<(Payload, Exit)>)
    requires !gateway.running
    modifies gateway
    ensures gateway.cleanups == old(gateway.cleanups) + 1
    ensures o.Done? && o.value.1 == PASSED ==>
      var p := o.value.0;
      && p.status == Passed && observed.Done? && !gateway.running
      && p.eventCount == p.physicalRequests == observed.value.durableEvents
      && observed.value.recordedRequests <= p.eventCount
      && (observed.value.proxyRequests.Some? ==> observed.value.proxyRequests.value <= p.eventCount)
      && AtMost(observed.value.rawSpend, p.spend) && AtMost(observed.value.durableSpend, p.spend)
      && !Overspent(limits, p)
      && c.start.None? && c.evidence.None? && c.comparison.None? && c.cleanup.None?
  {
    var run: Outcome<Payload>;
    match observed {
      case Raised(e) => run := Raised(e);
      case Done(evidence) =>
        var p := RunRpcCase(scenario, evidence);
        run := Done(p);
    }
    o := Execute(limits, c.(run := run), gateway);
  }
}
