/** What the analytics tools accept and answer, in terms of the call and of the shop: the schemas one by one
    (app/ai/contracts/tools.py), the look-ups against the whole shop, and the outcome of a question. */
module ToolLaws {
  import opened Text
  import opened Resolver
  import opened Ledger
  import opened Analytics

  // ------------------------------------------------------------------- schemas

  predicate Absent(raw: Args, key: Key) {
    key !in raw || raw[key] == NullArg
  }

  predicate HasPeriod(raw: Args) {
    PeriodKey in raw && raw[PeriodKey] == PeriodArg(ProperPeriod)
  }

  /** A number at or above a bound: a JSON integer, or what Pydantic reads as one. */
  predicate IsIntFrom(arg: Arg, low: int) {
    || (arg.IntArg? && arg.number >= low)
    || (arg.TextArg? && arg.integer.Some? && arg.integer.value >= low)
    || (arg.OtherArg? && arg.integer.Some? && arg.integer.value >= low)
  }

  predicate NamesProduct(raw: Args) {
    && raw.Keys <= {ProductIdKey, ProductNameKey}
    && (Absent(raw, ProductIdKey) || (raw[ProductIdKey].TextArg? && raw[ProductIdKey].uuid.Some?))
    && (Absent(raw, ProductNameKey) || raw[ProductNameKey].TextArg?)
    && (Absent(raw, ProductIdKey) ==> !Absent(raw, ProductNameKey) && Strip(raw[ProductNameKey].text) != "")
  }

  /** The input model of each tool, spelled out. */
  predicate FitsSchema(tool: ToolName, raw: Args) {
    match tool
    case SalesSummary => raw.Keys == {PeriodKey} && HasPeriod(raw)
    case SalesTrend =>
      && raw.Keys <= {PeriodKey, ComparisonKey} && HasPeriod(raw)
      && (Absent(raw, ComparisonKey) || raw[ComparisonKey] == PeriodArg(ProperPeriod))
    case TopProducts =>
      && raw.Keys <= {PeriodKey, DimensionKey, LimitKey} && HasPeriod(raw)
      && (Absent(raw, DimensionKey)
          || (raw[DimensionKey].TextArg? && (raw[DimensionKey].text == "units" || raw[DimensionKey].text == "revenue")))
      && (Absent(raw, LimitKey) || IsIntFrom(raw[LimitKey], 1))
    case SlowMovingItems =>
      && raw.Keys <= {PeriodKey, MaxSalesKey, LimitKey} && HasPeriod(raw)
      && (MaxSalesKey in raw ==> IsIntFrom(raw[MaxSalesKey], 0))
      && (Absent(raw, LimitKey) || IsIntFrom(raw[LimitKey], 1))
    case StockLevel => NamesProduct(raw)
    case ProductPrice => NamesProduct(raw)
    case LowStockItems => raw == map[]
    case OtherTool(_) => raw == map[]
  }

  /** The tests of the validator, without the dump. */
  predicate Passes(tool: ToolName, raw: Args) {
    && raw.Keys <= AllowedKeys(tool) && (forall key :: key in raw ==> FieldFits(key, raw[key]))
    && (NeedsPeriod(tool) ==> PeriodKey in raw)
    && (LooksUpProduct(tool) ==> IdentifiesProduct(raw))
  }

  lemma ValidIffPasses(tool: ToolName, raw: Args)
    ensures Validate(tool, raw).Valid? <==> Passes(tool, raw)
  {
    hide Dump;
    assert ShopIdKey !in AllowedKeys(tool);
  }

  lemma PassingFits(tool: ToolName, raw: Args)
    requires Passes(tool, raw)
    ensures FitsSchema(tool, raw)
  {
    if tool.LowStockItems? || tool.OtherTool? {
      assert raw.Keys == {};
    }
  }

  lemma FittingPasses(tool: ToolName, raw: Args)
    requires FitsSchema(tool, raw)
    ensures Passes(tool, raw)
  {
    forall key | key in raw ensures key in AllowedKeys(tool) && FieldFits(key, raw[key]) {
    }
  }

  /** A date range that ends before it starts. */
  predicate IsInverted(raw: Args, key: Key) {
    key in raw && raw[key] == PeriodArg(InvertedRange)
  }

  /** The one validator accepts for each tool exactly what that tool's input model describes; in particular
      no proposal that names a shop. An inverted date range is not a matter of the schema but an error of its
      own, whatever else is wrong with the proposal. */
  lemma ValidIffSchema(tool: ToolName, raw: Args)
    ensures Validate(tool, raw).Valid? <==> FitsSchema(tool, raw)
    ensures ShopIdKey in raw ==> Validate(tool, raw) == SchemaRejected
    ensures Validate(tool, raw) == InvalidDateRange
            <==> ShopIdKey !in raw && ((NeedsPeriod(tool) && IsInverted(raw, PeriodKey))
                                       || (tool == SalesTrend && IsInverted(raw, ComparisonKey)))
  {
    hide FitsSchema, Passes;
    ValidIffPasses(tool, raw);
    if Passes(tool, raw) {
      PassingFits(tool, raw);
    }
    if FitsSchema(tool, raw) {
      FittingPasses(tool, raw);
    }
  }

  /** What the handler of an accepted call is given: the arguments that were not null, numbers as integers,
      and the default of zero for the most sales of a slow product. */
  lemma HandlerArguments(tool: ToolName, raw: Args, key: Key)
    requires Validate(tool, raw).Valid?
    ensures var args := Validate(tool, raw).args;
            && (key in args <==> !Absent(raw, key) || (tool == SlowMovingItems && key == MaxSalesKey))
            && (!Absent(raw, key) && key !in {LimitKey, MaxSalesKey} ==> args[key] == raw[key])
            && (key == LimitKey && key in args ==> args[key].IntArg? && args[key].number >= 1)
            && (key == MaxSalesKey && key in args ==>
                  args[key].IntArg? && args[key].number >= 0 && (key !in raw ==> args[key].number == 0))
            && (key in {LimitKey, MaxSalesKey} && !Absent(raw, key) && raw[key].IntArg? ==> args[key] == raw[key])
            && (key in {LimitKey, MaxSalesKey} && !Absent(raw, key) && raw[key].TextArg? ==>
                  raw[key].integer == Some(args[key].number))
  {
    ValidIffSchema(tool, raw);
    assert key in raw ==> FieldFits(key, raw[key]);
  }

  // ------------------------------------------------------------------- look-ups

  const ROW_LIMIT := 5

  /** A call that names a product by its id, other than the nil id. */
  predicate ById(args: Args, id: Uuid) {
    ProductIdKey in args && args[ProductIdKey].TextArg? && args[ProductIdKey].uuid == Some(id) && id != NIL
  }

  /** A call without an id, or with the nil id, that gives this name, or none. */
  predicate ByName(args: Args, name: string) {
    && (Absent(args, ProductIdKey) || (args[ProductIdKey].TextArg? && args[ProductIdKey].uuid == Some(NIL)))
    && (if Absent(args, ProductNameKey) then name == ""
        else args[ProductNameKey].TextArg? && args[ProductNameKey].text == name)
  }

  /** A look-up by id answers about exactly that product if the shop has it, whatever name comes with it, and
      does not find it otherwise: never a product of another shop. */
  lemma LookUpById(call: ToolCall, id: Uuid, shop: Uuid, around: Surroundings)
    requires LooksUpProduct(call.tool) && FitsSchema(call.tool, call.args) && ById(call.args, id)
    requires around.fault == NoFault
    ensures var r := Execute(DEFAULT_TOOLS, call, shop, around).result;
            if InShop(around.db.products, shop, id)
            then r.Success? && TrueOfProduct(call.tool, r.data, around.db, shop, id)
            else r == Failure(ProductNotFoundError)
  {
    ValidIffSchema(call.tool, call.args);
    HandlerArguments(call.tool, call.args, ProductIdKey);
  }

  /** A look-up by name answers about a product exactly when that product wins clearly over every other one of
      the shop; it is ambiguous exactly when something comes close enough to be listed and nothing wins, and
      finds nothing exactly when nothing does. A blank name finds nothing. */
  lemma LookUpByName(
    call: ToolCall, name: string, shop: Uuid, around: Surroundings, sim: Similarity, id: Uuid)
    requires LooksUpProduct(call.tool) && FitsSchema(call.tool, call.args) && ByName(call.args, name)
    requires around.fault == NoFault
    requires FuzzyRows(around.rows, around.db.products, shop, sim, DEFAULTS.listed, ROW_LIMIT)
    ensures var r := Execute(DEFAULT_TOOLS, call, shop, around).result;
            var products := around.db.products;
            if Strip(name) == "" then r == Failure(ProductNotFoundError)
            else
              && (r.Success? && Subject(r.data) == Some(id) <==> ClearWinner(id, products, shop, sim, DEFAULTS))
              && (r == Failure(ProductNotFoundError)
                  <==> forall p :: InShop(products, shop, p) ==> sim(products[p].name) < DEFAULTS.listed)
              && (r.Success? || r == Failure(ProductNotFoundError)
                  || r == Failure(ProductAmbiguousError(around.rows)))
  {
    hide Validate, Dump, FitsSchema, ClearWinner, FuzzyRows;
    ByNameExecution(call, name, shop, around);
    if Strip(name) != "" {
      NamedLookUp(name, shop, around, sim, id);
    }
  }

  /** What the resolver says of the name is what the look-up comes to. */
  lemma ByNameExecution(call: ToolCall, name: string, shop: Uuid, around: Surroundings)
    requires LooksUpProduct(call.tool) && FitsSchema(call.tool, call.args) && ByName(call.args, name)
    requires around.fault == NoFault
    ensures var r := Execute(DEFAULT_TOOLS, call, shop, around).result;
            match ResolveProduct(name, around.rows, DEFAULTS)
            case NotFound => r == Failure(ProductNotFoundError)
            case Ambiguous(rows) => r == Failure(ProductAmbiguousError(rows))
            case ExactMatch(m) =>
              if InShop(around.db.products, shop, m.id) then r.Success? && Subject(r.data) == Some(m.id)
              else r == Failure(ProductNotFoundError)
  {
    hide Dump, FitsSchema;
    ValidIffSchema(call.tool, call.args);
    HandlerArguments(call.tool, call.args, ProductIdKey);
    HandlerArguments(call.tool, call.args, ProductNameKey);
  }

  /** And the resolver's verdict is one about the whole shop. */
  lemma NamedLookUp(name: string, shop: Uuid, around: Surroundings, sim: Similarity, id: Uuid)
    requires Strip(name) != ""
    requires FuzzyRows(around.rows, around.db.products, shop, sim, DEFAULTS.listed, ROW_LIMIT)
    ensures var answer, products := ResolveProduct(name, around.rows, DEFAULTS), around.db.products;
            && (answer.ExactMatch? && answer.product.id == id <==> ClearWinner(id, products, shop, sim, DEFAULTS))
            && (answer.ExactMatch? ==> InShop(products, shop, answer.product.id))
            && (answer.Ambiguous? ==> answer.candidates == around.rows)
            && (answer.NotFound?
                <==> forall p :: InShop(products, shop, p) ==> sim(products[p].name) < DEFAULTS.listed)
  {
    hide FuzzyRows, ClearWinner;
    var products, rows := around.db.products, around.rows;
    FirstRowIsBest(rows, products, shop, sim, DEFAULTS.listed, ROW_LIMIT);
    ExactMatchIffClearWinner(name, rows, products, shop, sim, DEFAULTS, ROW_LIMIT, id);
    if rows != [] {
      FirstRowIsListed(rows, products, shop, sim, DEFAULTS.listed, ROW_LIMIT);
    }
  }

  // ------------------------------------------------------------------- outcomes

  /** The figures of an answer have the form of its tool. */
  predicate HasForm(tool: ToolName, data: ToolData) {
    match data
    case Summary(_, _) => tool == SalesSummary
    case Rankings(_, _) => tool == TopProducts
    case Items(_, _) => tool == LowStockItems || tool == SlowMovingItems
    case Trend(_, _, _, _) => tool == SalesTrend
    case StockData(_, _, _, _, _, _) => tool == StockLevel
    case PriceData(_, _, _) => tool == ProductPrice
  }

  /** The answer has nothing to show: no revenue and no transactions, two empty rankings, no items, nothing
      in either period. An answer about a product always has something to show. */
  predicate NothingToShow(data: ToolData) {
    match data
    case Summary(revenue, transactions) => revenue == 0 && transactions == 0
    case Rankings(units, revenues) => units == 0 && revenues == 0
    case Items(count, listed) => count == 0 || listed == 0
    case Trend(now, before, soldNow, soldBefore) => now == 0 && before == 0 && soldNow == 0 && soldBefore == 0
    case _ => false
  }

  lemma EmptyIffNothingToShow(tool: ToolName, data: ToolData)
    requires HasForm(tool, data)
    ensures IsResultEmpty(tool, data) <==> NothingToShow(data)
  {
  }

  /** What the second request is for: several calls, a call of a tool that is not active, or one that the schema
      rejects. */
  predicate NeedsRepair(reply: ProviderReply, active: set<ToolName>, execute: Executor) {
    && reply.Calls? && reply.calls != []
    && (|reply.calls| > 1 || reply.calls[0].tool !in active
        || execute(0, reply.calls[0]) == Failure(SchemaValidationError))
  }

  /** What a single executed call comes to: an answer, empty or not by its figures, with the figures of that
      execution; a choice among the rows; or the failure that it met. */
  predicate ComesTo(call: ToolCall, result: ToolResult, outcome: AnalyticsOutcome, last: bool) {
    match result
    case Success(data, _) =>
      && (outcome.Answered? || outcome.AnsweredEmpty?)
      && outcome.data == data && outcome.call.tool == call.tool
      && (HasForm(call.tool, data) ==> (outcome.AnsweredEmpty? <==> NothingToShow(data)))
    case Failure(error) =>
      if error.ProductAmbiguousError? then outcome == NeedsSelection(call, error.candidates)
      else if error == SchemaValidationError then last && outcome == ArgumentValidationFailed(call.tool)
      else if error == InfrastructureError then outcome == InfrastructureFailure
      else outcome == DomainFailure(call.tool, error)
  }

  /** There is a second request exactly when the first response needs a repair, and the outcome of a question is
      what the response to the last request comes to, whichever of the two that is: a provider that fails,
      answers in the wrong format or proposes nothing ends the question at once. */
  lemma OutcomeOfLastTurn(
    replies: nat -> ProviderReply, execute: Executor, active: set<ToolName>, question: string, prior: Option<ToolCall>)
    ensures var run := Orchestrated(replies, execute, active, question, prior);
            && 1 <= |run.asked| <= 2 && (|run.asked| == 2 <==> NeedsRepair(replies(0), active, execute))
            && var i, second := |run.asked| - 1, |run.asked| == 2;
            match replies(i)
            case FormatError => run.outcome == MalformedResponse
            case ProviderError => run.outcome == ProviderUnavailable
            case OtherProviderError => run.outcome == InfrastructureFailure
            case Calls(calls) =>
              && (calls == [] ==> run.outcome == NoAnalyticsIntent)
              && (|calls| > 1 ==> second && run.outcome == InvalidProposal(MultipleCalls))
              && (|calls| == 1 && calls[0].tool !in active ==> second && run.outcome == InvalidProposal(UnknownTool))
              && (|calls| == 1 && calls[0].tool in active ==>
                    ComesTo(calls[0], execute(i, calls[0]), run.outcome, second))
  {
    hide OrElse, IsResultEmpty, HasForm, NothingToShow;
    var run := Orchestrated(replies, execute, active, question, prior);
    var i: nat := |run.asked| - 1;
    if replies(i).Calls? && |replies(i).calls| == 1 {
      var call := replies(i).calls[0];
      if execute(i, call).Success? && HasForm(call.tool, execute(i, call).data) {
        EmptyIffNothingToShow(call.tool, execute(i, call).data);
      }
    }
  }

  /** A repair keeps the conversation and adds two messages: what was proposed, and what was wrong with it. */
  lemma RepairExtendsPrompt(
    replies: nat -> ProviderReply, execute: Executor, active: set<ToolName>, question: string, prior: Option<ToolCall>)
    ensures var asked := Orchestrated(replies, execute, active, question, prior).asked;
            && |asked[0]| == (if prior.Some? then 2 else 1)
            && asked[0][|asked[0]| - 1] == Question(question)
            && (prior.Some? ==> asked[0][0] == PriorCall(prior.value))
            && (|asked| == 2 ==>
                  && |asked[1]| == |asked[0]| + 2 && asked[1][..|asked[0]|] == asked[0]
                  && replies(0).Calls? && replies(0).calls != []
                  && var (proposed, wrong) := (asked[1][|asked[0]|], asked[1][|asked[0]| + 1]);
                  && (|replies(0).calls| > 1 ==>
                        && wrong == AskForOne && proposed.ProposedMany? && |proposed.tools| == |replies(0).calls|
                        && forall i :: 0 <= i < |proposed.tools| ==> proposed.tools[i] == replies(0).calls[i].tool)
                  && (|replies(0).calls| == 1 ==>
                        var call := replies(0).calls[0];
                        if call.tool in active
                        then proposed == ProposedArguments(call) && wrong == SchemaFeedback(call.tool)
                        else proposed == ProposedTool(call.tool) && wrong == NotRecognized(call.tool)))
  {
  }
}
