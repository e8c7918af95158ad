/** From a question to an analytics outcome: argument validation, tool execution and the bounded
    repair loop (app/ai/validator.py, executor.py, orchestrator.py, retry.py, handlers/stock_handlers.py). */
module Analytics {
  import opened Text
  import opened Resolver
  import opened Ledger

  datatype ToolName =
    | SalesSummary | StockLevel | TopProducts | LowStockItems | SalesTrend | SlowMovingItems | ProductPrice
    | OtherTool(name: string)

  const DEFAULT_TOOLS: set<ToolName> :=
    {SalesSummary, StockLevel, TopProducts, LowStockItems, SalesTrend, SlowMovingItems, ProductPrice}

  datatype Key =
    | ShopIdKey | ProductIdKey | ProductNameKey | PeriodKey | ComparisonKey | DimensionKey | LimitKey
    | MaxSalesKey | OtherKey(name: string)

  datatype PeriodShape = ProperPeriod | InvertedRange | Misshapen

  /** A JSON argument, together with what the schema reads from it: the UUID or the integer that a text
      spells, the integer that an integral float or a boolean stands for. */
  datatype Arg =
    | NullArg
    | TextArg(text: string, uuid: Option<Uuid>, integer: Option<int>)
    | IntArg(number: int)
    | PeriodArg(shape: PeriodShape)
    | OtherArg(integer: Option<int>)

  type Args = map<Key, Arg>

  datatype ToolCall = ToolCall(tool: ToolName, args: Args)

  // --------------------------------------------------------------- validation

  datatype Validation = Valid(args: Args) | SchemaRejected | InvalidDateRange

  function AllowedKeys(tool: ToolName): set<Key> {
    match tool
    case SalesSummary => {PeriodKey}
    case TopProducts => {PeriodKey, DimensionKey, LimitKey}
    case SalesTrend => {PeriodKey, ComparisonKey}
    case SlowMovingItems => {PeriodKey, MaxSalesKey, LimitKey}
    case StockLevel => {ProductIdKey, ProductNameKey}
    case ProductPrice => {ProductIdKey, ProductNameKey}
    case LowStockItems => {}
    case OtherTool(_) => {}
  }

  predicate NeedsPeriod(tool: ToolName) {
    tool in {SalesSummary, TopProducts, SalesTrend, SlowMovingItems}
  }

  predicate LooksUpProduct(tool: ToolName) {
    tool == StockLevel || tool == ProductPrice
  }

  function Lookup(args: Args, key: Key): Arg {
    if key in args then args[key] else NullArg
  }

  /** The integer that the schema reads. */
  function AsInt(arg: Arg): Option<int> {
    match arg
    case IntArg(number) => Some(number)
    case TextArg(_, _, integer) => integer
    case OtherArg(integer) => integer
    case _ => None
  }

  /** The value of a field after validation. */
  function Coerced(key: Key, arg: Arg): Arg {
    if (key == LimitKey || key == MaxSalesKey) && AsInt(arg).Some? then IntArg(AsInt(arg).value) else arg
  }

  predicate FieldFits(key: Key, arg: Arg) {
    match key
    case PeriodKey => arg == PeriodArg(ProperPeriod)
    case ComparisonKey => arg == PeriodArg(ProperPeriod) || arg == NullArg
    case DimensionKey => arg == NullArg || (arg.TextArg? && arg.text in {"units", "revenue"})
    case LimitKey => arg == NullArg || (AsInt(arg).Some? && AsInt(arg).value > 0)
    case MaxSalesKey => AsInt(arg).Some? && AsInt(arg).value >= 0
    case ProductIdKey => arg == NullArg || (arg.TextArg? && arg.uuid.Some?)
    case ProductNameKey => arg == NullArg || arg.TextArg?
    case _ => false
  }

  predicate IdentifiesProduct(args: Args) {
    || Lookup(args, ProductIdKey) != NullArg
    || (Lookup(args, ProductNameKey).TextArg? && Strip(Lookup(args, ProductNameKey).text) != "")
  }

  /** ToolValidator.validate_schema, with the argument dump that the executor reports on success. An
      inverted date range raises through the schema check as a domain error. */
  function Validate(tool: ToolName, raw: Args): Validation {
    if ShopIdKey in raw then SchemaRejected
    else if exists key :: key in raw && key in AllowedKeys(tool) && key in {PeriodKey, ComparisonKey}
                          && raw[key] == PeriodArg(InvertedRange) then InvalidDateRange
    else if !(raw.Keys <= AllowedKeys(tool)) || (exists key :: key in raw && !FieldFits(key, raw[key]))
            || (NeedsPeriod(tool) && PeriodKey !in raw)
            || (LooksUpProduct(tool) && !IdentifiesProduct(raw)) then SchemaRejected
    else Valid(Dump(tool, raw))
  }

  /** `model_dump(exclude_none=True)` */
  function Dump(tool: ToolName, raw: Args): Args {
    (if tool == SlowMovingItems then map[MaxSalesKey := IntArg(0)] else map[])
    + map key | key in raw && raw[key] != NullArg :: Coerced(key, raw[key])
  }

  // ---------------------------------------------------------------- execution

  datatype ToolData =
    | Summary(revenue: int, transactions: int)
    | Rankings(units: nat, revenues: nat)                  // lengths of the two lists
    | Items(count: nat, listed: nat)
    | Trend(revenueNow: int, revenueBefore: int, transactionsNow: int, transactionsBefore: int)
    | StockData(product: Uuid, name: string, quantity: int, threshold: int, price: int, isLow: bool)
    | PriceData(product: Uuid, name: string, price: int)

  datatype ToolError =
    | ToolNotFoundError | SchemaValidationError | InvalidDateRangeError
    | ProductNotFoundError | ProductAmbiguousError(candidates: seq<ScoredProductMatch>)
    | InfrastructureError | UnexpectedError

  datatype ToolResult = Success(data: ToolData, validated: Args) | Failure(error: ToolError)

  datatype Fault = NoFault | RaisesInfrastructure | RaisesUnexpected

  /** What a handler meets: the database, the rows of the fuzzy query for the name it was given, a
      possible failure, and the answer of the handlers that look up no product. */
  datatype Surroundings =
    Surroundings(db: DbState, rows: seq<ScoredProductMatch>, fault: Fault, data: ToolData)

  /** A handler call as it happened: the tenant and the arguments it was given. */
  datatype HandlerCall = HandlerCall(shop: Uuid, args: Args)

  datatype Execution = Execution(result: ToolResult, handler: Option<HandlerCall>)

  datatype Result<+T> = Found(value: T) | Missing(error: ToolError)

  /** The product branches that handle_get_stock_level and handle_get_product_price share. */
  function FindProduct(shop: Uuid, args: Args, around: Surroundings): (r: Result<Uuid>)
    ensures r.Found? ==> InShop(around.db.products, shop, r.value)
  {
    var id, name := Lookup(args, ProductIdKey), Lookup(args, ProductNameKey);
    if id.TextArg? && id.uuid.Some? && id.uuid.value != NIL then
      if InShop(around.db.products, shop, id.uuid.value) then Found(id.uuid.value)
      else Missing(ProductNotFoundError)
    else if name.TextArg? && name.text != "" then
      match ResolveProduct(name.text, around.rows, DEFAULTS)
      case ExactMatch(product) =>
        if InShop(around.db.products, shop, product.id) then Found(product.id)
        else Missing(ProductNotFoundError)
      case Ambiguous(candidates) => Missing(ProductAmbiguousError(candidates))
      case NotFound => Missing(ProductNotFoundError)
    else Missing(ProductNotFoundError)
  }

  function RunHandler(tool: ToolName, shop: Uuid, args: Args, around: Surroundings): Result<ToolData> {
    if around.fault == RaisesInfrastructure then Missing(InfrastructureError)
    else if around.fault == RaisesUnexpected then Missing(UnexpectedError)
    else if !LooksUpProduct(tool) then Found(around.data)
    else
      match FindProduct(shop, args, around)
      case Missing(error) => Missing(error)
      case Found(id) =>
        var product := around.db.products[id];
        var stock :=
          if id in around.db.inventory then around.db.inventory[id] else Inventory(0, 0);
        Found(if tool == ProductPrice then PriceData(id, product.name, product.price)
              else StockData(id, product.name, stock.quantity, stock.threshold, product.price,
                             stock.quantity <= stock.threshold))
  }

  /** What an answer about a product says: the name and the price of a product of the shop as stored, and for
      a stock question the quantity and the threshold of its inventory row, or two zeros without one. */
  predicate TrueOfProduct(tool: ToolName, data: ToolData, db: DbState, shop: Uuid, id: Uuid) {
    && InShop(db.products, shop, id)
    && (tool == ProductPrice ==>
          data.PriceData? && data.product == id
          && data.name == db.products[id].name && data.price == db.products[id].price)
    && (tool == StockLevel ==>
          && data.StockData? && data.product == id
          && data.name == db.products[id].name && data.price == db.products[id].price
          && data.quantity == (if id in db.inventory then db.inventory[id].quantity else 0)
          && data.threshold == (if id in db.inventory then db.inventory[id].threshold else 0)
          && (data.isLow <==> data.quantity <= data.threshold))
  }

  /** The product that an answer is about, if it is about one. */
  function Subject(data: ToolData): Option<Uuid> {
    if data.StockData? || data.PriceData? then Some(data.product) else None
  }

  /** ToolExecutor.execute. A proposal that is not registered or does not validate reaches no handler;
      one that does runs for the trusted shop, and its arguments name no shop of their own. */
  function Execute(registered: set<ToolName>, call: ToolCall, shop: Uuid, around: Surroundings): (e: Execution)
    ensures e.handler.Some? <==> call.tool in registered && Validate(call.tool, call.args).Valid?
    ensures e.handler.Some? ==>
      e.handler.value.shop == shop && e.handler.value.args.Keys <= AllowedKeys(call.tool) - {ShopIdKey}
    ensures e.result.Success? ==> e.handler == Some(HandlerCall(shop, e.result.validated))
    ensures e.result.Success? && LooksUpProduct(call.tool) ==>
      Subject(e.result.data).Some?
      && TrueOfProduct(call.tool, e.result.data, around.db, shop, Subject(e.result.data).value)
  {
    if call.tool !in registered then Execution(Failure(ToolNotFoundError), None)
    else
      match Validate(call.tool, call.args)
      case SchemaRejected => Execution(Failure(SchemaValidationError), None)
      case InvalidDateRange => Execution(Failure(InvalidDateRangeError), None)
      case Valid(args) =>
        var handler := Some(HandlerCall(shop, args));
        match RunHandler(call.tool, shop, args, around)
        case Found(data) => Execution(Success(data, args), handler)
        case Missing(error) => Execution(Failure(error), handler)
  }

  // ------------------------------------------------------------- orchestration

  datatype ProviderReply =
    | Calls(calls: seq<ToolCall>)      // no call, one, or several
    | FormatError                      // LLMResponseFormatError
    | ProviderError                    // timeout, unavailable, API error
    | OtherProviderError

  /** A message to the model, by what it says. */
  datatype LLMMessage =
    | PriorCall(call: ToolCall) | Question(text: string)
    | ProposedMany(tools: seq<ToolName>) | AskForOne
    | ProposedTool(tool: ToolName) | NotRecognized(tool: ToolName)
    | ProposedArguments(call: ToolCall) | SchemaFeedback(tool: ToolName)

  datatype Reason = MultipleCalls | UnknownTool | ExhaustedRetries

  datatype AnalyticsOutcome =
    | Answered(call: ToolCall, data: ToolData)
    | AnsweredEmpty(call: ToolCall, data: ToolData)
    | NeedsSelection(pending: ToolCall, candidates: seq<ScoredProductMatch>)
    | NoAnalyticsIntent
    | InvalidProposal(reason: Reason)
    | ArgumentValidationFailed(tool: ToolName)
    | MalformedResponse
    | DomainFailure(tool: ToolName, error: ToolError)
    | ProviderUnavailable
    | InfrastructureFailure

  /** `is_result_empty`, where a missing attribute reads as zero. */
  function IsResultEmpty(tool: ToolName, data: ToolData): bool {
    match tool
    case SalesSummary => data.Summary? ==> data.revenue == 0 && data.transactions == 0
    case TopProducts => data.Rankings? ==> data.units == 0 && data.revenues == 0
    case LowStockItems => data.Items? ==> data.count == 0 || data.listed == 0
    case SlowMovingItems => data.Items? ==> data.count == 0 || data.listed == 0
    case SalesTrend =>
      data.Trend? ==> data.transactionsNow == 0 && data.transactionsBefore == 0
                      && data.revenueNow == 0 && data.revenueBefore == 0
    case _ => false
  }

  /** `result.validated_arguments or raw_args` */
  function OrElse(validated: Args, raw: Args): Args {
    if validated != map[] then validated else raw
  }

  function AnswerOf(call: ToolCall, result: ToolResult): AnalyticsOutcome
    requires result.Success?
  {
    var info := ToolCall(call.tool, OrElse(result.validated, call.args));
    if IsResultEmpty(call.tool, result.data) then AnsweredEmpty(info, result.data)
    else Answered(info, result.data)
  }

  type Executor = (nat, ToolCall) -> ToolResult

  /** One turn of the loop ends it, or asks the model again with two more messages. */
  datatype Turn = Finish(outcome: AnalyticsOutcome) | Repair(proposed: LLMMessage, feedback: LLMMessage)

  predicate Executes(reply: ProviderReply, active: set<ToolName>) {
    reply.Calls? && |reply.calls| == 1 && reply.calls[0].tool in active
  }

  function TakeTurn(attempt: nat, reply: ProviderReply, active: set<ToolName>, execute: Executor): (turn: Turn)
    ensures attempt > 0 ==> turn.Finish?
    ensures turn.Finish? ==> turn.outcome != InvalidProposal(ExhaustedRetries)
  {
    match reply
    case FormatError => Finish(MalformedResponse)
    case ProviderError => Finish(ProviderUnavailable)
    case OtherProviderError => Finish(InfrastructureFailure)
    case Calls(calls) =>
      if calls == [] then Finish(NoAnalyticsIntent)
      else if |calls| > 1 then
        if attempt == 0 then Repair(ProposedMany(seq(|calls|, i requires 0 <= i < |calls| => calls[i].tool)), AskForOne)
        else Finish(InvalidProposal(MultipleCalls))
      else if calls[0].tool !in active then
        if attempt == 0 then Repair(ProposedTool(calls[0].tool), NotRecognized(calls[0].tool))
        else Finish(InvalidProposal(UnknownTool))
      else
        var call, result := calls[0], execute(attempt, calls[0]);
        if result.Success? then Finish(AnswerOf(call, result))
        else
          match result.error
          case SchemaValidationError =>
            if attempt == 0 then Repair(ProposedArguments(call), SchemaFeedback(call.tool))
            else Finish(ArgumentValidationFailed(call.tool))
          case ProductAmbiguousError(candidates) => Finish(NeedsSelection(call, candidates))
          case InfrastructureError => Finish(InfrastructureFailure)
          case _ => Finish(DomainFailure(call.tool, result.error))
  }

  /** A whole run: its outcome, the message lists sent to the provider, the calls executed. */
  datatype Orchestration =
    Orchestration(outcome: AnalyticsOutcome, asked: seq<seq<LLMMessage>>, executed: seq<ToolCall>)

  function Opening(question: string, prior: Option<ToolCall>): seq<LLMMessage> {
    (if prior.Some? then [PriorCall(prior.value)] else []) + [Question(question)]
  }

  function ExecutedBy(reply: ProviderReply, active: set<ToolName>): seq<ToolCall> {
    if Executes(reply, active) then reply.calls else []
  }

  /** One proposal, and at most one repair. */
  function Orchestrated(
    replies: nat -> ProviderReply, execute: Executor, active: set<ToolName>,
    question: string, prior: Option<ToolCall>): Orchestration
  {
    var opening, first := Opening(question, prior), ExecutedBy(replies(0), active);
    match TakeTurn(0, replies(0), active, execute)
    case Finish(outcome) => Orchestration(outcome, [opening], first)
    case Repair(proposed, feedback) =>
      Orchestration(
        TakeTurn(1, replies(1), active, execute).outcome,
        [opening, opening + [proposed, feedback]],
        first + ExecutedBy(replies(1), active))
  }

  /** AnalyticsOrchestrator.run, for any provider and any executor. */
  method Run(
    replies: nat -> ProviderReply, execute: Executor, active: set<ToolName>,
    question: string, prior: Option<ToolCall>)
    returns (outcome: AnalyticsOutcome, asked: seq<seq<LLMMessage>>, executed: seq<ToolCall>)
    ensures Orchestration(outcome, asked, executed) == Orchestrated(replies, execute, active, question, prior)
    ensures outcome != InvalidProposal(ExhaustedRetries)
  {
    hide AnswerOf;
    var messages: seq<LLMMessage> := [];
    asked, executed := [], [];
    if prior.Some? {
      messages := messages + [PriorCall(prior.value)];
    }
    messages := messages + [Question(question)];
    for attempt := 0 to 2
      invariant attempt == 0 ==> messages == Opening(question, prior) && asked == [] && executed == []
      invariant attempt == 1 ==>
        var turn := TakeTurn(0, replies(0), active, execute);
        && turn.Repair?
        && messages == Opening(question, prior) + [turn.proposed, turn.feedback]
        && asked == [Opening(question, prior)] && executed == ExecutedBy(replies(0), active)
      invariant attempt < 2
    {
      asked := asked + [messages];
      var reply := replies(attempt);
      match reply {
        case FormatError => return MalformedResponse, asked, executed;
        case ProviderError => return ProviderUnavailable, asked, executed;
        case OtherProviderError => return InfrastructureFailure, asked, executed;
        case Calls(calls) =>
          if |calls| == 0 {
            return NoAnalyticsIntent, asked, executed;
          }
          if |calls| > 1 {
            if attempt == 0 {
              var names := seq(|calls|, i requires 0 <= i < |calls| => calls[i].tool);
              messages := messages + [ProposedMany(names)] + [AskForOne];
              continue;
            }
            return InvalidProposal(MultipleCalls), asked, executed;
          }
          var call := calls[0];
          if call.tool !in active {
            if attempt == 0 {
              messages := messages + [ProposedTool(call.tool)] + [NotRecognized(call.tool)];
              continue;
            }
            return InvalidProposal(UnknownTool), asked, executed;
          }
          var result := execute(attempt, call);
          executed := executed + [call];
          if result.Success? {
            outcome := AnswerOf(call, result);
            return;
          }
          match result.error {
            case SchemaValidationError =>
              if attempt == 0 {
                messages := messages + [ProposedArguments(call)] + [SchemaFeedback(call.tool)];
                continue;
              }
              return ArgumentValidationFailed(call.tool), asked, executed;
            case ProductAmbiguousError(candidates) =>
              return NeedsSelection(call, candidates), asked, executed;
            case InfrastructureError =>
              return InfrastructureFailure, asked, executed;
            case _ =>
              return DomainFailure(call.tool, result.error), asked, executed;
          }
      }
    }
    return InvalidProposal(ExhaustedRetries), asked, executed;
  }

  /** For any provider and executor: at most two provider calls and two executions, and everything
      executed was the sole call of one of the responses and named an active tool. */
  lemma OrchestrationIsBounded(
    replies: nat -> ProviderReply, execute: Executor, active: set<ToolName>,
    question: string, prior: Option<ToolCall>)
    ensures var run := Orchestrated(replies, execute, active, question, prior);
            && 1 <= |run.asked| <= 2 && |run.executed| <= |run.asked|
            && run.outcome != InvalidProposal(ExhaustedRetries)
            && (forall call :: call in run.executed ==>
                  call.tool in active && exists i: nat :: i < |run.asked| && replies(i) == Calls([call]))
  {
    var run := Orchestrated(replies, execute, active, question, prior);
    forall call | call in run.executed
      ensures call.tool in active && exists i: nat :: i < |run.asked| && replies(i) == Calls([call])
    {
      if call in ExecutedBy(replies(0), active) {
        assert replies(0).calls == [call];
      } else {
        assert replies(1).calls == [call];
      }
    }
  }

  // ----------------------------------------------------------- retry policy

  const MAX_RETRIES := 1

  /** BoundedRetryPolicy.can_retry */
  predicate CanRetry(attempt: nat, error: ToolError) {
    attempt < MAX_RETRIES && (error == ToolNotFoundError || error == SchemaValidationError)
  }

  /** The error behind a single proposed call, if it has one. */
  function ProposalError(call: ToolCall, active: set<ToolName>, result: ToolResult): Option<ToolError> {
    if call.tool !in active then Some(ToolNotFoundError)
    else if result.Failure? then Some(result.error)
    else None
  }

  /** The loop repairs a single proposed call exactly when the policy allows a retry of its error. The
      one exception is an active tool that the registry lacks: the policy would retry it, and the
      loop reports a domain failure instead. */
  lemma RepairMatchesPolicy(
    attempt: nat, call: ToolCall, registered: set<ToolName>, active: set<ToolName>,
    shop: Uuid, around: Surroundings)
    ensures var execute := (i: nat, c: ToolCall) => Execute(registered, c, shop, around).result;
            var repairs := TakeTurn(attempt, Calls([call]), active, execute).Repair?;
            var error := ProposalError(call, active, execute(attempt, call));
            var allowed := error.Some? && CanRetry(attempt, error.value);
            (repairs <==> allowed)
            <==> !(attempt == 0 && call.tool in active && call.tool !in registered)
  {
    var result := Execute(registered, call, shop, around).result;
    assert call.tool in registered ==> result != Failure(ToolNotFoundError);
  }

  // ---------------------------------------------------- resuming a parked call

  /** The parked arguments with the merchant's choice written into them. */
  function Resumed(pending: ToolCall, choice: ScoredProductMatch, idText: string): ToolCall {
    pending.(args := pending.args[ProductIdKey := TextArg(idText, Some(choice.id), None)]
                                 [ProductNameKey := TextArg(choice.name, None, None)])
  }

  /** A call that came back ambiguous is a product lookup that passed validation. */
  lemma AmbiguousCallsAreLookups(
    registered: set<ToolName>, call: ToolCall, shop: Uuid, around: Surroundings)
    requires Execute(registered, call, shop, around).result.Failure?
    requires Execute(registered, call, shop, around).result.error.ProductAmbiguousError?
    ensures call.tool in registered && LooksUpProduct(call.tool) && Validate(call.tool, call.args).Valid?
    ensures var candidates := Execute(registered, call, shop, around).result.error.candidates;
            candidates == around.rows && candidates != []
  {
  }

  lemma ResumedArguments(pending: ToolCall, choice: ScoredProductMatch, idText: string)
    ensures var resumed := Resumed(pending, choice, idText);
            && Lookup(resumed.args, ProductIdKey) == TextArg(idText, Some(choice.id), None)
            && Lookup(Dump(resumed.tool, resumed.args), ProductIdKey) == TextArg(idText, Some(choice.id), None)
            && Lookup(Dump(resumed.tool, resumed.args), ProductNameKey) == TextArg(choice.name, None, None)
            && resumed.tool == pending.tool
            && forall key :: key in resumed.args ==>
                 || key == ProductIdKey || key == ProductNameKey
                 || (key in pending.args && resumed.args[key] == pending.args[key])
  {
  }

  lemma ResumedCallValidates(pending: ToolCall, choice: ScoredProductMatch, idText: string)
    requires LooksUpProduct(pending.tool) && Validate(pending.tool, pending.args).Valid?
    ensures var resumed := Resumed(pending, choice, idText);
            && Validate(resumed.tool, resumed.args) == Valid(Dump(resumed.tool, resumed.args))
            && Lookup(Dump(resumed.tool, resumed.args), ProductIdKey) == TextArg(idText, Some(choice.id), None)
            && Lookup(Dump(resumed.tool, resumed.args), ProductNameKey) == TextArg(choice.name, None, None)
  {
    var resumed := Resumed(pending, choice, idText);
    ResumedArguments(pending, choice, idText);
    assert Validate(resumed.tool, resumed.args) == Valid(Dump(resumed.tool, resumed.args)) by {
      hide Dump;
      assert resumed.args[ProductNameKey] == TextArg(choice.name, None, None);
      forall key | key in resumed.args ensures FieldFits(key, resumed.args[key]) {
        assert key == ProductIdKey || key == ProductNameKey || key in pending.args;
      }
    }
  }

  /** Resuming it with a chosen product never fails validation, and comes back ambiguous only for the
      nil id, which the database never generates. */
  lemma ResumedCallRuns(
    registered: set<ToolName>, pending: ToolCall, choice: ScoredProductMatch, idText: string,
    shop: Uuid, around: Surroundings)
    requires pending.tool in registered && LooksUpProduct(pending.tool)
    requires Validate(pending.tool, pending.args).Valid?
    ensures var call := Resumed(pending, choice, idText);
            var e := Execute(registered, call, shop, around);
            && e.handler == Some(HandlerCall(shop, Dump(call.tool, call.args)))
            && e.result != Failure(SchemaValidationError) && e.result != Failure(InvalidDateRangeError)
            && (choice.id != NIL ==> !(e.result.Failure? && e.result.error.ProductAmbiguousError?))
            && (choice.id != NIL && around.fault == NoFault ==>
                  if InShop(around.db.products, shop, choice.id)
                  then e.result.Success?
                       && TrueOfProduct(pending.tool, e.result.data, around.db, shop, choice.id)
                  else e.result == Failure(ProductNotFoundError))
            && (around.fault == RaisesInfrastructure ==> e.result == Failure(InfrastructureError))
            && (around.fault == RaisesUnexpected ==> e.result == Failure(UnexpectedError))
  {
    hide Validate;
    ResumedCallValidates(pending, choice, idText);
  }

  /** What a successful execution reports is never replaced by the raw proposal: the dump is empty
      only when the proposal is. */
  lemma ReportedArgumentsAreValidated(tool: ToolName, raw: Args)
    requires tool in DEFAULT_TOOLS && Validate(tool, raw).Valid?
    ensures OrElse(Validate(tool, raw).args, raw) == Validate(tool, raw).args
  {
    var dump := Dump(tool, raw);
    if tool == SlowMovingItems {
      assert MaxSalesKey in dump;
    } else if NeedsPeriod(tool) {
      assert FieldFits(PeriodKey, raw[PeriodKey]);
      assert PeriodKey in dump;
    } else if LooksUpProduct(tool) {
      assert ProductIdKey in dump || ProductNameKey in dump;
    } else {
      assert raw == map[];
    }
  }
}
