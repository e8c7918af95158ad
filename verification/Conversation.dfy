/** The conversation state machine, as functions: what one message makes of a session and of the
    database (app/fsm/engine.py, app/fsm/primitives.py, app/fsm/flows/, app/fsm/routing_policy.py).
    Engine.dfy holds the code that updates a session in place and is verified against these. */
module Conversation {
  import opened Text
  import opened Inputs
  import opened Resolver
  import opened Ledger
  import opened Analytics

  datatype SessionState =
    | IDLE
    | START_ADD_PRODUCT | ADD_PRODUCT_NAME | ADD_PRODUCT_PRICE | ADD_PRODUCT_QTY | CONFIRM_ADD_PRODUCT
    | RECORD_SALE_PRODUCT | RECORD_SALE_PRODUCT_SELECTION | RECORD_SALE_QTY | CONFIRM_SALE
    | CHECK_STOCK_PRODUCT | CHECK_STOCK_PRODUCT_SELECTION
    | REPORT_PENDING
    | ANALYTICS_PRODUCT_SELECTION

  /** PriorCallContext: the last analytics call that succeeded, and when. */
  datatype SuccessfulCall = SuccessfulCall(call: ToolCall, at: int)

  datatype PendingCall = PendingCall(call: ToolCall, candidates: seq<ScoredProductMatch>)

  datatype Context = Context(
    shopId: Option<Uuid>,
    productId: Option<Uuid>,
    productName: Option<string>,
    productPrice: Option<int>,
    productQty: Option<int>,
    flowStartedAt: Option<int>,
    history: seq<SessionState>,
    errorCount: int,
    lastActivity: Option<int>,
    candidates: seq<ScoredProductMatch>,
    lastCall: Option<SuccessfulCall>,
    pending: Option<PendingCall>)

  const NEW_CONTEXT := Context(None, None, None, None, None, None, [], 0, None, [], None, None)

  datatype Session = Session(phone: string, state: SessionState, context: Context)

  function NewSession(phone: string): Session {
    Session(phone, IDLE, NEW_CONTEXT)
  }

  datatype Task = LowStockAlert(phone: string, product: Uuid, remaining: int) | DailyReport(phone: string, shop: Uuid)

  /** The database session of one message, and the background tasks it has enqueued. */
  datatype World = World(committed: DbState, working: DbState, tasks: seq<Task>)

  datatype Intent = UnknownText | AddProduct | RecordSale | GenerateReport | CheckStock

  /** Places where the infrastructure may fail. */
  datatype Point =
    | ShopLookup | FuzzyQuery | StockRead | ProductInsert | StockCommit | StockRefresh | AlertEnqueue | ReportEnqueue
    | LocaleRead | FinalCommit

  /** Everything a message meets that the code does not decide: the clock, the settings, the intent
      patterns, fresh ids, query answers, the model provider, and failures. */
  datatype Env = Env(
    now: int,
    maxErrors: int,
    intent: Intent,
    analyticsEnabled: bool,
    hasProviderKey: bool,
    followUpTtl: int,
    newShopId: Uuid,
    newProductId: Uuid,
    rows: seq<ScoredProductMatch>,
    faults: set<Point>,
    replies: nat -> ProviderReply,
    toolRows: nat -> seq<ScoredProductMatch>,
    toolFault: nat -> Fault,
    toolData: nat -> ToolData,
    choiceIdText: string)

  datatype Escape = CorruptedSession | DbEscape(error: DbError) | AlreadyExists | Infrastructure | ParseCrash

  /** How a handler ends: with a reply, with InvalidInputError, or with another exception. */
  datatype Reply =
    | Done(key: MessageKey)
    | Invalid(key: MessageKey, cause: Option<DbError>)
    | Escaped(escape: Escape)

  datatype Handled = Handled(session: Session, world: World, reply: Reply)

  /** The handler records no sale. */
  predicate NoSale(w: World, h: Handled) {
    && h.reply != Done(SaleRecorded)
    && (w.committed.sales == w.working.sales ==> SameSales(w, h.world))
  }

  predicate SameSales(w: World, after: World) {
    after.committed.sales == w.committed.sales && after.working.sales == w.working.sales
  }

  // --------------------------------------------------------------- primitives

  function Transition(s: Session, to: SessionState, now: int): Session {
    var history := if s.state != to then s.context.history + [s.state] else s.context.history;
    s.(state := to, context := s.context.(history := history, lastActivity := Some(now)))
  }

  function ClearContext(s: Session, now: int): Session {
    s.(context := NEW_CONTEXT.(
      shopId := s.context.shopId, history := s.context.history, lastActivity := Some(now)))
  }

  function BackToIdle(s: Session, now: int): Session {
    ClearContext(Transition(s, IDLE, now), now)
  }

  /** The shop of a phone number; an unknown phone gets a shop, committed at once. */
  function GetShopId(w: World, phone: string, env: Env): (r: Option<(World, Uuid)>)
    ensures r.Some? && w.committed.sales == w.working.sales ==> SameSales(w, r.value.0)
  {
    if ShopLookup in env.faults then None
    else if phone in w.working.shops then Some((w, w.working.shops[phone]))
    else
      var db := w.working.(shops := w.working.shops[phone := env.newShopId]);
      Some((w.(committed := db, working := db), env.newShopId))
  }

  datatype Choice = Chosen(product: ScoredProductMatch) | NotChosen(key: MessageKey)

  function ResolveChoice(c: Context, text: string): Choice {
    if c.candidates == [] then NotChosen(SessionContextLost)
    else
      match ParseInt(text)
      case None => NotChosen(InvalidChoice)
      case Some(n) => if 1 <= n <= |c.candidates| then Chosen(c.candidates[n - 1]) else NotChosen(InvalidChoice)
  }

  // --------------------------------------------------------- adding a product

  function NameGiven(s: Session, w: World, name: Parsed<string>, env: Env): (h: Handled)
    ensures h.reply.Invalid? ==> h.session == s && h.world == w
    ensures NoSale(w, h)
  {
    match name
    case Good(given) =>
      var named := s.(context := s.context.(productName := Some(given)));
      Handled(Transition(named, ADD_PRODUCT_PRICE, env.now), w, Done(AskPrice))
    case Bad(key) => Handled(s, w, Invalid(key, None))
    case Raises => Handled(s, w, Escaped(ParseCrash))
  }

  function HandleName(s: Session, w: World, text: string, env: Env): (h: Handled)
    ensures h.reply.Invalid? ==> h.session == s && h.world == w
    ensures NoSale(w, h)
  {
    NameGiven(s, w, ParseProductName(text), env)
  }

  function PriceGiven(s: Session, w: World, parsed: Parsed<int>, env: Env): (h: Handled)
    ensures h.reply.Invalid? ==> h.session == s && h.world == w
    ensures NoSale(w, h)
  {
    match parsed
    case Good(price) =>
      var priced := s.(context := s.context.(productPrice := Some(price)));
      Handled(Transition(priced, ADD_PRODUCT_QTY, env.now), w, Done(AskStockQuantity))
    case Bad(key) => Handled(s, w, Invalid(key, None))
    case Raises => Handled(s, w, Escaped(ParseCrash))
  }

  function HandlePrice(s: Session, w: World, text: string, env: Env): (h: Handled)
    ensures h.reply.Invalid? ==> h.session == s && h.world == w
    ensures NoSale(w, h)
  {
    PriceGiven(s, w, ParsePrice(text), env)
  }

  function QtyGiven(s: Session, w: World, parsed: Parsed<int>, env: Env): (h: Handled)
    ensures h.reply.Invalid? ==> h.session == s && h.world == w
    ensures NoSale(w, h)
  {
    if s.context.productName.None? || s.context.productPrice.None? then
      Handled(s, w, Invalid(SessionContextLost, None))
    else
      match parsed
      case Good(quantity) =>
        var counted := s.(context := s.context.(productQty := Some(quantity)));
        Handled(Transition(counted, CONFIRM_ADD_PRODUCT, env.now), w, Done(ConfirmProduct))
      case Bad(key) => Handled(s, w, Invalid(key, None))
      case Raises => Handled(s, w, Escaped(ParseCrash))
  }

  function HandleQty(s: Session, w: World, text: string, env: Env): (h: Handled)
    ensures h.reply.Invalid? ==> h.session == s && h.world == w
    ensures NoSale(w, h)
  {
    QtyGiven(s, w, ParseQuantity(text), env)
  }

  /** The shop, the product and its opening stock, each committed on its own. */
  function PersistProduct(c: Context, w: World, phone: string, env: Env): (r: (World, Option<Escape>, Uuid))
    requires c.productName.Some? && c.productPrice.Some? && c.productQty.Some?
    ensures w.committed.sales == w.working.sales ==> SameSales(w, r.0)
  {
    var shop := if c.shopId.Some? then Some((w, c.shopId.value)) else GetShopId(w, phone, env);
    if shop.None? then (w, Some(Infrastructure), 0)
    else
      var (w1, shopId) := shop.value;
      if c.productPrice.value <= 0 || c.productPrice.value > NUMERIC_MAX then
        (w1, Some(DbEscape(StorageError)), shopId)
      else if ProductInsert in env.faults then (w1.(working := w1.committed), Some(AlreadyExists), shopId)
      else
        var product := Product(shopId, c.productName.value, c.productPrice.value);
        var db := w1.working.(products := w1.working.products[env.newProductId := product]);
        var w2 := w1.(committed := db, working := db);
        if c.productQty.value <= 0 then (w2, None, shopId)
        else
          match UpdatedStock(db, env.newProductId, Restock(c.productQty.value))
          case Failed(error) => (w2, Some(DbEscape(error)), shopId)
          case Ok((stocked, _)) =>
            if StockCommit in env.faults then (w2, Some(DbEscape(StorageError)), shopId)
            else
              var problem := if StockRefresh in env.faults then Some(DbEscape(StorageError)) else None;
              (w2.(committed := stocked, working := stocked), problem, shopId)
  }

  function AddConfirmed(s: Session, w: World, answer: Parsed<bool>, env: Env): (h: Handled)
    ensures h.reply.Invalid? ==> h.session == s && h.world == w
    ensures NoSale(w, h)
  {
    match answer
    case Bad(key) => Handled(s, w, Invalid(key, None))
    case Raises => Handled(s, w, Escaped(ParseCrash))
    case Good(false) => Handled(BackToIdle(s, env.now), w, Done(ProductCancelled))
    case Good(true) =>
      var c := s.context;
      if c.productName.None? || c.productPrice.None? || c.productQty.None? then
        Handled(s, w, Invalid(SessionContextLost, None))
      else
        var (w1, problem, shopId) := PersistProduct(c, w, s.phone, env);
        if problem.Some? then Handled(s, w1, Escaped(problem.value))
        else
          var shopped := s.(context := c.(shopId := Some(shopId)));
          Handled(BackToIdle(shopped, env.now), w1, Done(ProductAdded))
  }

  function HandleConfirmAdd(s: Session, w: World, text: string, env: Env): (h: Handled)
    ensures h.reply.Invalid? ==> h.session == s && h.world == w
    ensures NoSale(w, h)
  {
    AddConfirmed(s, w, ParseConfirmation(text), env)
  }

  // --------------------------------------------------------- recording a sale

  function WithProduct(c: Context, m: ScoredProductMatch): Context {
    c.(productId := Some(m.id), productName := Some(m.name), productPrice := Some(m.price))
  }

  function HandleSaleName(s: Session, w: World, text: string, env: Env): (h: Handled)
    ensures !h.reply.Invalid?
    ensures NoSale(w, h)
  {
    var shop := GetShopId(w, s.phone, env);
    if shop.None? || FuzzyQuery in env.faults then
      Handled(s, if shop.Some? then shop.value.0 else w, Escaped(Infrastructure))
    else
      var (w1, shopId) := shop.value;
      var c := s.context.(shopId := Some(shopId));
      match FindByFuzzyName(env.rows, DEFAULTS)
      case ExactMatch(product) =>
        Handled(Transition(s.(context := WithProduct(c, product)), RECORD_SALE_QTY, env.now), w1,
                Done(AskSaleQuantity))
      case Ambiguous(candidates) =>
        Handled(Transition(s.(context := c.(candidates := candidates)), RECORD_SALE_PRODUCT_SELECTION, env.now),
                w1, Done(ProductChoices))
      case NotFound => Handled(s.(context := c), w1, Done(ProductNotFound))
  }

  function SaleSelected(s: Session, w: World, choice: Choice, env: Env): (h: Handled)
    ensures h.reply.Invalid? ==> h.session == s && h.world == w
    ensures NoSale(w, h)
  {
    match choice
    case NotChosen(key) => Handled(s, w, Invalid(key, None))
    case Chosen(product) =>
      var moved := Transition(s.(context := WithProduct(s.context, product)), RECORD_SALE_QTY, env.now);
      Handled(moved.(context := moved.context.(candidates := [])), w, Done(AskQuantity))
  }

  function HandleSaleSelection(s: Session, w: World, text: string, env: Env): (h: Handled)
    ensures h.reply.Invalid? ==> h.session == s && h.world == w
    ensures NoSale(w, h)
  {
    SaleSelected(s, w, ResolveChoice(s.context, text), env)
  }

  predicate HasProduct(c: Context) {
    c.productId.Some? && c.productName.Some? && c.productName.value != ""
  }

  function SaleQtyGiven(s: Session, w: World, parsed: Parsed<int>, env: Env): (h: Handled)
    ensures h.reply.Invalid? ==> h.session == s && h.world == w
    ensures NoSale(w, h)
  {
    match parsed
    case Bad(key) => Handled(s, w, Invalid(key, None))
    case Raises => Handled(s, w, Escaped(ParseCrash))
    case Good(quantity) =>
      if quantity <= 0 then Handled(s, w, Invalid(QuantityTooLow, None))
      else if !HasProduct(s.context) || s.context.productPrice.None? then Handled(s, w, Escaped(CorruptedSession))
      else if StockRead in env.faults then Handled(s, w, Escaped(Infrastructure))
      else
        match Stocked(w.working.inventory, s.context.productId.value)
        case None => Handled(s, w, Escaped(DbEscape(InventoryMissing)))
        case Some(stock) =>
          if quantity > stock.quantity then Handled(s, w, Invalid(InsufficientStock(stock.quantity), None))
          else
            var counted := s.(context := s.context.(productQty := Some(quantity)));
            Handled(Transition(counted, SessionState.CONFIRM_SALE, env.now), w, Done(ConfirmSale))
  }

  function HandleSaleQty(s: Session, w: World, text: string, env: Env): (h: Handled)
    ensures h.reply.Invalid? ==> h.session == s && h.world == w
    ensures NoSale(w, h)
  {
    SaleQtyGiven(s, w, ParseQuantity(text), env)
  }

  function SaleConfirmed(s: Session, w: World, answer: Parsed<bool>, env: Env): (h: Handled)
    ensures h.reply.Invalid? ==> h.session == s && h.world == w
  {
    match answer
    case Bad(key) => Handled(s, w, Invalid(key, None))
    case Raises => Handled(s, w, Escaped(ParseCrash))
    case Good(false) => Handled(BackToIdle(s, env.now), w, Done(SaleCancelled))
    case Good(true) =>
      var c := s.context;
      if !HasProduct(c) || c.productQty.None? || c.shopId.None? then Handled(s, w, Escaped(CorruptedSession))
      else
        match RecordedSale(w.working, c.shopId.value, c.productId.value, c.productQty.value, env.now)
        case Failed(error) =>
          Handled(s, w, if error in {ProductMissing, InventoryMissing, ShopConflict}
                        then Invalid(UnknownError, Some(error)) else Escaped(DbEscape(error)))
        case Ok((db, result)) =>
          var w1 := w.(working := db);
          if !result.enteredLowStock then Handled(BackToIdle(s, env.now), w1, Done(SaleRecorded))
          else if AlertEnqueue in env.faults then Handled(s, w1, Escaped(Infrastructure))
          else
            var alert := LowStockAlert(s.phone, c.productId.value, result.remaining);
            Handled(BackToIdle(s, env.now), w1.(tasks := w1.tasks + [alert]), Done(SaleRecorded))
  }

  function HandleConfirmSale(s: Session, w: World, text: string, env: Env): (h: Handled)
    ensures h.reply.Invalid? ==> h.session == s && h.world == w
  {
    SaleConfirmed(s, w, ParseConfirmation(text), env)
  }

  // ------------------------------------------------------------ stock look-up

  function StockNameGiven(s: Session, w: World, name: Parsed<string>, env: Env): (h: Handled)
    ensures h.reply.Invalid? ==> h.session == s && h.world == w
    ensures NoSale(w, h)
  {
    match name
    case Bad(key) => Handled(s, w, Invalid(key, None))
    case Raises => Handled(s, w, Escaped(ParseCrash))
    case Good(_) =>
      var shop := GetShopId(w, s.phone, env);
      if shop.None? || FuzzyQuery in env.faults then
        Handled(s, if shop.Some? then shop.value.0 else w, Escaped(Infrastructure))
      else
        var (w1, shopId) := shop.value;
        var shopped := s.(context := s.context.(shopId := Some(shopId)));
        match FindByFuzzyName(env.rows, DEFAULTS)
        case NotFound =>
          Handled(shopped.(context := shopped.context.(candidates := [])), w1, Done(StockNotFound))
        case Ambiguous(candidates) =>
          Handled(Transition(shopped.(context := shopped.context.(candidates := candidates)),
                             CHECK_STOCK_PRODUCT_SELECTION, env.now), w1, Done(ProductChoices))
        case ExactMatch(product) => ReportStock(shopped, w1, product, env)
  }

  function HandleStockName(s: Session, w: World, text: string, env: Env): (h: Handled)
    ensures h.reply.Invalid? ==> h.session == s && h.world == w
    ensures NoSale(w, h)
  {
    StockNameGiven(s, w, ParseProductName(text), env)
  }

  function ReportStock(s: Session, w: World, product: ScoredProductMatch, env: Env): (h: Handled)
    ensures !h.reply.Invalid?
    ensures NoSale(w, h)
  {
    if StockRead in env.faults then Handled(s, w, Escaped(Infrastructure))
    else if product.id !in w.working.inventory then Handled(s, w, Escaped(DbEscape(InventoryMissing)))
    else
      var quantity := w.working.inventory[product.id].quantity;
      Handled(BackToIdle(s, env.now), w, Done(StockRemaining(product.name, quantity)))
  }

  function StockSelected(s: Session, w: World, choice: Choice, env: Env): (h: Handled)
    ensures h.reply.Invalid? ==> h.session == s && h.world == w
    ensures NoSale(w, h)
  {
    match choice
    case NotChosen(key) => Handled(s, w, Invalid(key, None))
    case Chosen(product) => ReportStock(s.(context := WithProduct(s.context, product)), w, product, env)
  }

  function HandleStockSelection(s: Session, w: World, text: string, env: Env): (h: Handled)
    ensures h.reply.Invalid? ==> h.session == s && h.world == w
    ensures NoSale(w, h)
  {
    StockSelected(s, w, ResolveChoice(s.context, text), env)
  }

  // ---------------------------------------------------------------- analytics

  predicate HasFreshContext(c: Context, env: Env) {
    c.lastCall.Some? && env.now - c.lastCall.value.at <= env.followUpTtl
  }

  predicate CanRoute(c: Context, text: string, env: Env) {
    var cleaned := Strip(text);
    && env.analyticsEnabled && env.hasProviderKey
    && (if HasFreshContext(c, env) then 1 else 2) <= |cleaned| <= 500
    && (cleaned != "" && AllDigits(cleaned) ==> HasFreshContext(c, env))
  }

  function AnalyticsKey(outcome: AnalyticsOutcome): MessageKey {
    match outcome
    case Answered(_, _) => AnalyticsAnswer
    case AnsweredEmpty(_, _) => AnalyticsEmpty
    case NeedsSelection(_, _) => ProductChoices
    case DomainFailure(_, error) => if error == ProductNotFoundError then ProductNotFound else AnalyticsDomainError
    case ProviderUnavailable => AnalyticsProviderUnavailable
    case InfrastructureFailure => AnalyticsInfrastructureError
    case _ => AnalyticsInvalidProposal
  }

  function AroundTool(w: World, env: Env, attempt: nat): Surroundings {
    Surroundings(w.working, env.toolRows(attempt), env.toolFault(attempt), env.toolData(attempt))
  }

  function ExecutorIn(w: World, shop: Uuid, env: Env): Executor {
    (attempt: nat, call: ToolCall) => Execute(DEFAULT_TOOLS, call, shop, AroundTool(w, env, attempt)).result
  }

  function HandleQuery(s: Session, w: World, text: string, env: Env): (h: Handled)
    ensures !h.reply.Invalid?
    ensures NoSale(w, h)
  {
    match GetShopId(w, s.phone, env)
    case None => Handled(s, w, Escaped(Infrastructure))
    case Some((w1, shopId)) =>
      var c := s.context.(shopId := Some(shopId));
      var prior := if HasFreshContext(c, env) then Some(c.lastCall.value.call) else None;
      var run := Orchestrated(env.replies, ExecutorIn(w1, shopId, env), DEFAULT_TOOLS, text, prior);
      AfterQuery(s.(context := c), w1, run.outcome, env)
  }

  function AfterQuery(s: Session, w: World, outcome: AnalyticsOutcome, env: Env): (h: Handled)
    ensures !h.reply.Invalid?
    ensures NoSale(w, h)
  {
    var c := s.context;
    var after :=
      match outcome
      case NeedsSelection(call, candidates) =>
        var parked := Transition(s, ANALYTICS_PRODUCT_SELECTION, env.now);
        parked.(context := parked.context.(
          candidates := candidates, pending := Some(PendingCall(call, candidates)), errorCount := 0))
      case Answered(call, _) => s.(context := c.(errorCount := 0, lastCall := Some(SuccessfulCall(call, env.now))))
      case AnsweredEmpty(call, _) => s.(context := c.(errorCount := 0, lastCall := Some(SuccessfulCall(call, env.now))))
      case _ => s;
    Handled(after, w, Done(AnalyticsKey(outcome)))
  }

  /** The outcome of a resumed call, as the formatter sees it. */
  function ResumedOutcome(call: ToolCall, result: ToolResult): AnalyticsOutcome {
    if result.Success? then AnswerOf(call, result)
    else if result.error == InfrastructureError then InfrastructureFailure
    else DomainFailure(call.tool, result.error)
  }

  function ProductSelected(s: Session, w: World, choice: Choice, env: Env): (h: Handled)
    ensures h.reply.Invalid? ==> h.session == s && h.world == w
    ensures NoSale(w, h)
  {
    match choice
    case NotChosen(key) => Handled(s, w, Invalid(key, None))
    case Chosen(product) =>
      if s.context.pending.None? then Handled(BackToIdle(s, env.now), w, Done(SessionContextLost))
      else
        var call := Resumed(s.context.pending.value.call, product, env.choiceIdText);
        match GetShopId(w, s.phone, env)
        case None => Handled(s, w, Escaped(Infrastructure))
        case Some((w1, shopId)) =>
          var result := ExecutorIn(w1, shopId, env)(0, call);
          var lastCall :=
            if result.Success? then Some(SuccessfulCall(call.(args := OrElse(result.validated, call.args)), env.now))
            else s.context.lastCall;
          var c := s.context.(lastCall := lastCall, pending := None, candidates := []);
          Handled(Transition(s.(context := c), IDLE, env.now), w1, Done(AnalyticsKey(ResumedOutcome(call, result))))
  }

  function HandleProductSelection(s: Session, w: World, text: string, env: Env): (h: Handled)
    ensures h.reply.Invalid? ==> h.session == s && h.world == w
    ensures NoSale(w, h)
  {
    ProductSelected(s, w, ResolveChoice(s.context, text), env)
  }

  // ------------------------------------------------------------------- engine

  predicate IsOverride(text: string) {
    ToLower(Strip(text)) in {"cancel", "menu", "exit", "stop"}
  }

  function HandleIdle(s: Session, w: World, text: string, env: Env): (h: Handled)
    ensures h.reply.Invalid? ==> h.session == s && h.world == w
    ensures NoSale(w, h)
  {
    if !env.intent.UnknownText? then StartFlow(s, w, env)
    else if CanRoute(s.context, text, env) then HandleQuery(s, w, text, env)
    else Handled(s, w, Invalid(UnknownIntent, None))
  }

  function StartFlow(s: Session, w: World, env: Env): (h: Handled)
    requires !env.intent.UnknownText?
    ensures !h.reply.Invalid?
    ensures NoSale(w, h)
  {
    var started := s.(context := s.context.(flowStartedAt := Some(env.now)));
    match env.intent
    case RecordSale => Handled(Transition(started, RECORD_SALE_PRODUCT, env.now), w, Done(StartSale))
    case CheckStock => Handled(Transition(started, CHECK_STOCK_PRODUCT, env.now), w, Done(StartStockCheck))
    case AddProduct => Handled(Transition(started, ADD_PRODUCT_NAME, env.now), w, Done(StartAddProduct))
    case GenerateReport => HandleReport(started, w, env)
  }

  function HandleReport(s: Session, w: World, env: Env): (h: Handled)
    ensures !h.reply.Invalid?
    ensures NoSale(w, h)
  {
    var reporting := Transition(s, REPORT_PENDING, env.now);
    var shop := if s.context.shopId.Some? then Some((w, s.context.shopId.value)) else GetShopId(w, s.phone, env);
    if shop.None? || ReportEnqueue in env.faults then
      Handled(s, if shop.Some? then shop.value.0 else w, Escaped(Infrastructure))
    else
      var (w1, shopId) := shop.value;
      var shopped := reporting.(context := reporting.context.(shopId := Some(shopId)));
      Handled(Transition(shopped, IDLE, env.now), w1.(tasks := w1.tasks + [DailyReport(s.phone, shopId)]),
              Done(ReportGenerating))
  }

  /** The handler of the current state. */
  function Handle(s: Session, w: World, text: string, env: Env): (h: Handled)
    ensures h.reply.Invalid? ==> h.session == s && h.world == w
    ensures s.state != SessionState.CONFIRM_SALE ==> NoSale(w, h)
  {
    match s.state
    case ADD_PRODUCT_NAME => HandleName(s, w, text, env)
    case ADD_PRODUCT_PRICE => HandlePrice(s, w, text, env)
    case ADD_PRODUCT_QTY => HandleQty(s, w, text, env)
    case CONFIRM_ADD_PRODUCT => HandleConfirmAdd(s, w, text, env)
    case RECORD_SALE_PRODUCT => HandleSaleName(s, w, text, env)
    case RECORD_SALE_PRODUCT_SELECTION => HandleSaleSelection(s, w, text, env)
    case RECORD_SALE_QTY => HandleSaleQty(s, w, text, env)
    case CONFIRM_SALE => HandleConfirmSale(s, w, text, env)
    case CHECK_STOCK_PRODUCT => HandleStockName(s, w, text, env)
    case CHECK_STOCK_PRODUCT_SELECTION => HandleStockSelection(s, w, text, env)
    case ANALYTICS_PRODUCT_SELECTION => HandleProductSelection(s, w, text, env)
    case _ => HandleIdle(s, w, text, env) // IDLE, START_ADD_PRODUCT, REPORT_PENDING
  }

  /** The end of process_message: count or reset the errors, and give up at the limit. */
  function Settle(h: Handled, env: Env): Handled {
    var c := h.session.context;
    match h.reply
    case Escaped(_) => h
    case Done(_) => h.(session := h.session.(context := c.(errorCount := 0)))
    case Invalid(_, _) =>
      var counted := h.session.(context := c.(errorCount := c.errorCount + 1));
      if c.errorCount + 1 >= env.maxErrors then
        Handled(BackToIdle(counted, env.now), h.world, Done(TooManyInvalid))
      else h.(session := counted)
  }

  /** FSMEngine.process_message */
  function Process(s: Session, w: World, text: string, env: Env): Handled {
    if IsOverride(text) then Handled(BackToIdle(s, env.now), w, Done(FlowCancelled))
    else Settle(Handle(s, w, text, env), env)
  }
}
