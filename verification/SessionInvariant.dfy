/** What every message keeps true of a session: which fields its state fills in, whose products it
    holds, how its history runs, and how far its error counter can go. */
module SessionInvariant {
  import opened Text
  import opened Inputs
  import opened Resolver
  import opened Ledger
  import opened Analytics
  import opened Conversation

  /** The owners of all ids ever generated: one shop for each phone number, and one shop for each
      product id. The database never changes either, and never reuses an id. */
  datatype Universe = Universe(shopOf: string -> Uuid, home: Uuid -> Uuid)

  /** The fixed surroundings of a run: one phone number, the owners of all ids, the error limit. */
  datatype Setting = Setting(phone: string, universe: Universe, maxErrors: int)

  ghost predicate DbOk(db: DbState, u: Universe) {
    && (forall phone :: phone in db.shops ==> db.shops[phone] == u.shopOf(phone))
    && (forall p :: p in db.products ==> db.products[p].shopId == u.home(p) && p != NIL)
  }

  const CHAT_LIMIT := 3
  const TOOL_LIMIT := 5

  /** Rows that the fuzzy query may return for some search term. */
  ghost predicate PossibleRows(rows: seq<ScoredProductMatch>, products: map<Uuid, Product>, shop: Uuid, limit: nat) {
    exists sim: Similarity :: IsSimilarity(sim) && FuzzyRows(rows, products, shop, sim, DEFAULTS.listed, limit)
  }

  /** The environment is free, except that fresh ids are fresh and query answers are answers. */
  ghost predicate EnvOk(phone: string, w: World, env: Env, u: Universe) {
    && env.newShopId == u.shopOf(phone)
    && u.home(env.newProductId) == u.shopOf(phone) && env.newProductId != NIL
    && PossibleRows(env.rows, w.working.products, u.shopOf(phone), CHAT_LIMIT)
    && forall i: nat :: PossibleRows(env.toolRows(i), w.working.products, u.shopOf(phone), TOOL_LIMIT)
  }

  // ---------------------------------------------------------------- the graph

  predicate Edge(a: SessionState, b: SessionState) {
    match a
    case IDLE =>
      b in {ADD_PRODUCT_NAME, RECORD_SALE_PRODUCT, CHECK_STOCK_PRODUCT, REPORT_PENDING, ANALYTICS_PRODUCT_SELECTION}
    case ADD_PRODUCT_NAME => b in {ADD_PRODUCT_PRICE, IDLE}
    case ADD_PRODUCT_PRICE => b in {ADD_PRODUCT_QTY, IDLE}
    case ADD_PRODUCT_QTY => b in {CONFIRM_ADD_PRODUCT, IDLE}
    case RECORD_SALE_PRODUCT => b in {RECORD_SALE_PRODUCT_SELECTION, RECORD_SALE_QTY, IDLE}
    case RECORD_SALE_PRODUCT_SELECTION => b in {RECORD_SALE_QTY, IDLE}
    case RECORD_SALE_QTY => b in {SessionState.CONFIRM_SALE, IDLE}
    case CHECK_STOCK_PRODUCT => b in {CHECK_STOCK_PRODUCT_SELECTION, IDLE}
    case START_ADD_PRODUCT => false
    case _ => b == IDLE
  }

  /** What one whole message may do to the stored state. */
  predicate MessageEdge(a: SessionState, b: SessionState) {
    b != REPORT_PENDING && (a == b || Edge(a, b))
  }

  predicate Walk(path: seq<SessionState>) {
    && path != [] && path[0] == IDLE
    && forall i :: 0 <= i < |path| - 1 ==> Edge(path[i], path[i + 1])
  }

  function Path(s: Session): seq<SessionState> {
    s.context.history + [s.state]
  }

  // ------------------------------------------------------------ the invariant

  predicate NoProduct(c: Context) {
    c.productId.None? && c.productName.None? && c.productPrice.None? && c.productQty.None?
  }

  predicate NoChoice(c: Context) {
    c.candidates == [] && c.pending.None?
  }

  predicate EmptyDraft(c: Context) {
    NoProduct(c) && NoChoice(c)
  }

  /** A conversation broken off or brought to its end: nothing is left of it but the shop and the history. */
  predicate ResetFrom(before: Session, after: Session, now: int) {
    && after.phone == before.phone && after.state == IDLE && EmptyDraft(after.context)
    && after.context.shopId == before.context.shopId && after.context.errorCount == 0
    && after.context.flowStartedAt.None? && after.context.lastCall.None? && after.context.lastActivity == Some(now)
    && Path(after) == Path(before) + (if before.state == IDLE then [] else [IDLE])
  }

  ghost predicate OwnProduct(id: Uuid, shop: Uuid, u: Universe) {
    id != NIL && u.home(id) == shop
  }

  /** A list to choose from: not empty, short enough for one-digit numbers, all of it the shop's. */
  ghost predicate Choosable(candidates: seq<ScoredProductMatch>, shop: Uuid, u: Universe) {
    && 1 <= |candidates| <= TOOL_LIMIT
    && forall i :: 0 <= i < |candidates| ==>
         CandidateOf(candidates[i], shop) && OwnProduct(candidates[i].id, shop, u)
  }

  ghost predicate HoldsProduct(c: Context, shop: Uuid, u: Universe) {
    && HasProduct(c) && c.productPrice.Some? && OwnProduct(c.productId.value, shop, u)
    && c.shopId.Some?
  }

  ghost predicate ContextFits(state: SessionState, c: Context, shop: Uuid, u: Universe) {
    match state
    case IDLE => EmptyDraft(c)
    case ADD_PRODUCT_NAME => EmptyDraft(c)
    case ADD_PRODUCT_PRICE =>
      NoChoice(c) && c.productName.Some? && NoProduct(c.(productName := None))
    case ADD_PRODUCT_QTY =>
      && NoChoice(c) && c.productName.Some? && c.productPrice.Some? && c.productPrice.value > 0
      && c.productId.None? && c.productQty.None?
    case CONFIRM_ADD_PRODUCT =>
      && NoChoice(c) && c.productName.Some? && c.productPrice.Some? && c.productPrice.value > 0
      && c.productId.None? && c.productQty.Some? && c.productQty.value >= 0
    case RECORD_SALE_PRODUCT => EmptyDraft(c)
    case RECORD_SALE_PRODUCT_SELECTION =>
      NoProduct(c) && c.pending.None? && c.shopId.Some? && Choosable(c.candidates, shop, u)
    case RECORD_SALE_QTY => NoChoice(c) && HoldsProduct(c, shop, u) && c.productQty.None?
    case CONFIRM_SALE =>
      NoChoice(c) && HoldsProduct(c, shop, u) && c.productQty.Some? && c.productQty.value > 0
    case CHECK_STOCK_PRODUCT => EmptyDraft(c)
    case CHECK_STOCK_PRODUCT_SELECTION =>
      NoProduct(c) && c.pending.None? && c.shopId.Some? && Choosable(c.candidates, shop, u)
    case ANALYTICS_PRODUCT_SELECTION =>
      && NoProduct(c) && c.shopId.Some? && Choosable(c.candidates, shop, u)
      && c.pending.Some? && c.pending.value.candidates == c.candidates
      && var call := c.pending.value.call;
         call.tool in DEFAULT_TOOLS && LooksUpProduct(call.tool) && Validate(call.tool, call.args).Valid?
    case _ => false // START_ADD_PRODUCT and REPORT_PENDING are never at rest
  }

  predicate ErrorsBelow(errorCount: int, maxErrors: int) {
    errorCount == 0 || 0 < errorCount < maxErrors
  }

  ghost predicate WellFormed(s: Session, u: Universe, maxErrors: int) {
    var c, shop := s.context, u.shopOf(s.phone);
    && (c.shopId.Some? ==> c.shopId.value == shop)
    && ContextFits(s.state, c, shop, u)
    && ErrorsBelow(c.errorCount, maxErrors)
    && Walk(Path(s))
  }

  /** The branches for a lost or foreign context. */
  predicate ContextLost(reply: Reply) {
    || reply == Done(SessionContextLost) || (reply.Invalid? && reply.key == SessionContextLost)
    || reply == Escaped(CorruptedSession)
    || (reply.Invalid? && reply.cause == Some(ShopConflict))
  }

  /** What a handler, and then a whole message, keeps. */
  ghost predicate Keeps(s: Session, h: Handled, u: Universe, maxErrors: int) {
    && DbOk(h.world.committed, u)
    && !ContextLost(h.reply)
    && (!h.reply.Escaped? ==>
          && h.session.phone == s.phone
          && DbOk(h.world.working, u)
          && WellFormed(h.session, u, maxErrors)
          && MessageEdge(s.state, h.session.state)
          && Path(s) <= Path(h.session))
  }

  // ------------------------------------------------------------------- proofs

  lemma MoveKeepsWalk(s: Session, to: SessionState, now: int)
    requires Walk(Path(s)) && (to == s.state || Edge(s.state, to))
    ensures Walk(Path(Transition(s, to, now))) && Path(s) <= Path(Transition(s, to, now))
  {
    var before, after := Path(s), Path(Transition(s, to, now));
    if to != s.state {
      assert after == before + [to];
    }
  }

  lemma IdleIsWellFormed(s: Session, now: int, u: Universe, maxErrors: int)
    requires Walk(Path(s)) && s.state != START_ADD_PRODUCT
    requires s.context.shopId.Some? ==> s.context.shopId.value == u.shopOf(s.phone)
    ensures WellFormed(BackToIdle(s, now), u, maxErrors)
    ensures Path(s) <= Path(BackToIdle(s, now)) && MessageEdge(s.state, IDLE)
  {
    MoveKeepsWalk(s, IDLE, now);
  }

  lemma RowsAreChoosable(
    rows: seq<ScoredProductMatch>, db: DbState, shop: Uuid, limit: nat, u: Universe)
    requires PossibleRows(rows, db.products, shop, limit) && limit <= TOOL_LIMIT && DbOk(db, u)
    ensures rows != [] ==> Choosable(rows, shop, u)
  {
    var sim: Similarity :| IsSimilarity(sim) && FuzzyRows(rows, db.products, shop, sim, DEFAULTS.listed, limit);
    RowsAreNamedCandidates(rows, db.products, shop, sim, DEFAULTS.listed, limit);
    forall i | 0 <= i < |rows| ensures OwnProduct(rows[i].id, shop, u) {
      var eligible := Eligible(db.products, shop, sim, DEFAULTS.listed);
      var ordered: seq<ScoredProductMatch> :| Orders(ordered, eligible) && rows == Limit(ordered, limit);
      assert rows[i] == ordered[i] && rows[i] in eligible;
    }
  }

  lemma ShopIsOwn(w: World, phone: string, env: Env, u: Universe)
    requires DbOk(w.committed, u) && DbOk(w.working, u) && env.newShopId == u.shopOf(phone)
    ensures var shop := GetShopId(w, phone, env);
            shop.Some? ==>
              && shop.value.1 == u.shopOf(phone)
              && DbOk(shop.value.0.committed, u) && DbOk(shop.value.0.working, u)
              && shop.value.0.working.products == w.working.products
  {
  }

  lemma NameKeeps(s: Session, w: World, name: Parsed<string>, env: Env, u: Universe)
    requires WellFormed(s, u, env.maxErrors)
    requires DbOk(w.committed, u) && DbOk(w.working, u)
    requires s.state == ADD_PRODUCT_NAME && Sane(name)
    ensures Keeps(s, NameGiven(s, w, name, env), u, env.maxErrors)
  {
    MoveKeepsWalk(s, ADD_PRODUCT_PRICE, env.now);
  }

  lemma PriceKeeps(s: Session, w: World, price: Parsed<int>, env: Env, u: Universe)
    requires WellFormed(s, u, env.maxErrors)
    requires DbOk(w.committed, u) && DbOk(w.working, u)
    requires s.state == ADD_PRODUCT_PRICE && Sane(price) && (price.Good? ==> price.value > 0)
    ensures Keeps(s, PriceGiven(s, w, price, env), u, env.maxErrors)
  {
    MoveKeepsWalk(s, ADD_PRODUCT_QTY, env.now);
  }

  lemma QtyKeeps(s: Session, w: World, quantity: Parsed<int>, env: Env, u: Universe)
    requires WellFormed(s, u, env.maxErrors)
    requires DbOk(w.committed, u) && DbOk(w.working, u)
    requires s.state == ADD_PRODUCT_QTY && Sane(quantity) && (quantity.Good? ==> quantity.value >= 0)
    ensures Keeps(s, QtyGiven(s, w, quantity, env), u, env.maxErrors)
  {
    MoveKeepsWalk(s, CONFIRM_ADD_PRODUCT, env.now);
  }

  /** Adding the product keeps the ids' owners, however far it gets. */
  lemma PersistKeeps(c: Context, w: World, phone: string, env: Env, u: Universe)
    requires DbOk(w.committed, u) && DbOk(w.working, u) && EnvOk(phone, w, env, u)
    requires c.productName.Some? && c.productPrice.Some? && c.productQty.Some?
    requires c.shopId.Some? ==> c.shopId.value == u.shopOf(phone)
    ensures var (after, problem, shopId) := PersistProduct(c, w, phone, env);
            && DbOk(after.committed, u) && DbOk(after.working, u)
            && (problem.None? ==> shopId == u.shopOf(phone))
            && problem != Some(CorruptedSession)
  {
    ShopIsOwn(w, phone, env, u);
    var shop := if c.shopId.Some? then Some((w, c.shopId.value)) else GetShopId(w, phone, env);
    if shop.Some? {
      var (w1, shopId) := shop.value;
      assert DbOk(w1.committed, u) && DbOk(w1.working, u) && shopId == u.shopOf(phone);
      var product := Product(shopId, c.productName.value, c.productPrice.value);
      NewProductIsOwn(w1.working, env.newProductId, product, u);
    }
  }

  lemma NewProductIsOwn(db: DbState, id: Uuid, product: Product, u: Universe)
    requires DbOk(db, u) && id != NIL && u.home(id) == product.shopId
    ensures DbOk(db.(products := db.products[id := product]), u)
  {
  }

  lemma ConfirmAddKeeps(s: Session, w: World, answer: Parsed<bool>, env: Env, u: Universe)
    requires WellFormed(s, u, env.maxErrors) && EnvOk(s.phone, w, env, u)
    requires DbOk(w.committed, u) && DbOk(w.working, u)
    requires s.state == CONFIRM_ADD_PRODUCT && Sane(answer)
    ensures Keeps(s, AddConfirmed(s, w, answer, env), u, env.maxErrors)
  {
    hide PersistProduct, PossibleRows;
    PersistKeeps(s.context, w, s.phone, env, u);
    IdleIsWellFormed(s, env.now, u, env.maxErrors);
    var shopped := s.(context := s.context.(shopId := Some(u.shopOf(s.phone))));
    IdleIsWellFormed(shopped, env.now, u, env.maxErrors);
  }

  lemma FoundAmongRows(rows: seq<ScoredProductMatch>)
    ensures match FindByFuzzyName(rows, DEFAULTS)
            case ExactMatch(product) => rows != [] && product == rows[0]
            case Ambiguous(candidates) => rows != [] && candidates == rows
            case NotFound => true
  {
  }

  lemma SaleNameKeeps(s: Session, w: World, text: string, env: Env, u: Universe)
    requires WellFormed(s, u, env.maxErrors) && EnvOk(s.phone, w, env, u)
    requires DbOk(w.committed, u) && DbOk(w.working, u)
    requires s.state == RECORD_SALE_PRODUCT
    ensures Keeps(s, HandleSaleName(s, w, text, env), u, env.maxErrors)
  {
    hide PossibleRows, Validate, GetShopId, FindByFuzzyName, DbOk, LooksUpProduct;
    ShopIsOwn(w, s.phone, env, u);
    FoundAmongRows(env.rows);
    RowsAreChoosable(env.rows, w.working, u.shopOf(s.phone), CHAT_LIMIT, u);
    MoveKeepsWalk(s, RECORD_SALE_QTY, env.now);
    MoveKeepsWalk(s, RECORD_SALE_PRODUCT_SELECTION, env.now);
  }

  /** A choice made from a list of the shop's products. */
  ghost predicate ChoiceOk(choice: Choice, shop: Uuid, u: Universe) {
    match choice
    case NotChosen(key) => key != SessionContextLost
    case Chosen(m) => CandidateOf(m, shop) && OwnProduct(m.id, shop, u)
  }

  lemma SaleSelectionKeeps(s: Session, w: World, choice: Choice, env: Env, u: Universe)
    requires WellFormed(s, u, env.maxErrors)
    requires DbOk(w.committed, u) && DbOk(w.working, u)
    requires s.state == RECORD_SALE_PRODUCT_SELECTION && ChoiceOk(choice, u.shopOf(s.phone), u)
    ensures Keeps(s, SaleSelected(s, w, choice, env), u, env.maxErrors)
  {
    MoveKeepsWalk(s, RECORD_SALE_QTY, env.now);
  }

  lemma SaleQtyKeeps(s: Session, w: World, quantity: Parsed<int>, env: Env, u: Universe)
    requires WellFormed(s, u, env.maxErrors)
    requires DbOk(w.committed, u) && DbOk(w.working, u)
    requires s.state == RECORD_SALE_QTY && Sane(quantity)
    ensures Keeps(s, SaleQtyGiven(s, w, quantity, env), u, env.maxErrors)
  {
    hide Validate, LooksUpProduct, NoSale;
    MoveKeepsWalk(s, SessionState.CONFIRM_SALE, env.now);
  }

  lemma SaleIsNeverForeign(db: DbState, shop: Uuid, p: Uuid, q: int, now: int, u: Universe)
    requires DbOk(db, u) && OwnProduct(p, shop, u)
    ensures var r := RecordedSale(db, shop, p, q, now);
            && r != Failed(ShopConflict)
            && (r.Ok? ==> DbOk(r.value.0, u))
  {
  }

  lemma ConfirmSaleKeeps(s: Session, w: World, answer: Parsed<bool>, env: Env, u: Universe)
    requires WellFormed(s, u, env.maxErrors)
    requires DbOk(w.committed, u) && DbOk(w.working, u)
    requires s.state == SessionState.CONFIRM_SALE && Sane(answer)
    ensures Keeps(s, SaleConfirmed(s, w, answer, env), u, env.maxErrors)
  {
    var c := s.context;
    hide RecordedSale, Validate;
    SaleIsNeverForeign(w.working, c.shopId.value, c.productId.value, c.productQty.value, env.now, u);
    IdleIsWellFormed(s, env.now, u, env.maxErrors);
  }

  lemma ReportStockKeeps(s: Session, before: Session, w: World, product: ScoredProductMatch, env: Env, u: Universe)
    requires Walk(Path(s)) && s.state != START_ADD_PRODUCT
    requires before.phone == s.phone && before.state == s.state && Path(before) == Path(s)
    requires s.context.shopId.Some? ==> s.context.shopId.value == u.shopOf(s.phone)
    requires DbOk(w.committed, u) && DbOk(w.working, u)
    ensures Keeps(before, ReportStock(s, w, product, env), u, env.maxErrors)
  {
    IdleIsWellFormed(s, env.now, u, env.maxErrors);
  }

  lemma StockNameKeeps(s: Session, w: World, name: Parsed<string>, env: Env, u: Universe)
    requires WellFormed(s, u, env.maxErrors) && EnvOk(s.phone, w, env, u)
    requires DbOk(w.committed, u) && DbOk(w.working, u)
    requires s.state == CHECK_STOCK_PRODUCT && Sane(name)
    ensures Keeps(s, StockNameGiven(s, w, name, env), u, env.maxErrors)
  {
    hide PossibleRows, Validate, GetShopId, FindByFuzzyName, DbOk, LooksUpProduct;
    FoundAmongRows(env.rows);
    ShopIsOwn(w, s.phone, env, u);
    RowsAreChoosable(env.rows, w.working, u.shopOf(s.phone), CHAT_LIMIT, u);
    MoveKeepsWalk(s, CHECK_STOCK_PRODUCT_SELECTION, env.now);
    var shop, found := GetShopId(w, s.phone, env), FindByFuzzyName(env.rows, DEFAULTS);
    if shop.Some? && found.ExactMatch? {
      var shopped := s.(context := s.context.(shopId := Some(shop.value.1)));
      ReportStockKeeps(shopped, s, shop.value.0, found.product, env, u);
    }
  }

  lemma StockSelectionKeeps(s: Session, w: World, choice: Choice, env: Env, u: Universe)
    requires WellFormed(s, u, env.maxErrors)
    requires DbOk(w.committed, u) && DbOk(w.working, u)
    requires s.state == CHECK_STOCK_PRODUCT_SELECTION && ChoiceOk(choice, u.shopOf(s.phone), u)
    ensures Keeps(s, StockSelected(s, w, choice, env), u, env.maxErrors)
  {
    if choice.Chosen? {
      ReportStockKeeps(s.(context := WithProduct(s.context, choice.product)), s, w, choice.product, env, u);
    }
  }

  /** A selection is offered only for a product look-up that passed validation, with the rows of the
      shop as candidates. */
  lemma SelectionIsSound(
    replies: nat -> ProviderReply, w: World, shop: Uuid, env: Env, text: string, prior: Option<ToolCall>)
    ensures var outcome := Orchestrated(replies, ExecutorIn(w, shop, env), DEFAULT_TOOLS, text, prior).outcome;
            outcome.NeedsSelection? ==>
              && outcome.pending.tool in DEFAULT_TOOLS && LooksUpProduct(outcome.pending.tool)
              && Validate(outcome.pending.tool, outcome.pending.args).Valid?
              && outcome.candidates != []
              && exists i: nat :: outcome.candidates == env.toolRows(i)
  {
    var execute := ExecutorIn(w, shop, env);
    var outcome := Orchestrated(replies, execute, DEFAULT_TOOLS, text, prior).outcome;
    if outcome.NeedsSelection? {
      var i: nat := if TakeTurn(0, replies(0), DEFAULT_TOOLS, execute).Finish? then 0 else 1;
      AmbiguousCallsAreLookups(DEFAULT_TOOLS, outcome.pending, shop, AroundTool(w, env, i));
      assert outcome.candidates == env.toolRows(i);
    }
  }

  lemma AfterQueryKeeps(before: Session, s: Session, w: World, outcome: AnalyticsOutcome, env: Env, u: Universe)
    requires WellFormed(s, u, env.maxErrors) && s.state == IDLE && s.context.shopId.Some?
    requires before.phone == s.phone && before.state == IDLE && Path(before) == Path(s)
    requires DbOk(w.committed, u) && DbOk(w.working, u)
    requires outcome.NeedsSelection? ==>
      && outcome.pending.tool in DEFAULT_TOOLS && LooksUpProduct(outcome.pending.tool)
      && Validate(outcome.pending.tool, outcome.pending.args).Valid?
      && Choosable(outcome.candidates, u.shopOf(s.phone), u)
    ensures Keeps(before, AfterQuery(s, w, outcome, env), u, env.maxErrors)
  {
    MoveKeepsWalk(s, ANALYTICS_PRODUCT_SELECTION, env.now);
  }

  lemma QueryKeeps(s: Session, w: World, text: string, env: Env, u: Universe)
    requires WellFormed(s, u, env.maxErrors) && EnvOk(s.phone, w, env, u)
    requires DbOk(w.committed, u) && DbOk(w.working, u)
    requires s.state == IDLE
    ensures Keeps(s, HandleQuery(s, w, text, env), u, env.maxErrors)
  {
    ShopIsOwn(w, s.phone, env, u);
    if GetShopId(w, s.phone, env).Some? {
      var (w1, shopId) := GetShopId(w, s.phone, env).value;
      var c := s.context.(shopId := Some(shopId));
      var prior := if HasFreshContext(c, env) then Some(c.lastCall.value.call) else None;
      var outcome := Orchestrated(env.replies, ExecutorIn(w1, shopId, env), DEFAULT_TOOLS, text, prior).outcome;
      SelectionIsSound(env.replies, w1, shopId, env, text, prior);
      if outcome.NeedsSelection? {
        var i: nat :| outcome.candidates == env.toolRows(i);
        RowsAreChoosable(env.toolRows(i), w.working, shopId, TOOL_LIMIT, u);
      }
      AfterQueryKeeps(s, s.(context := c), w1, outcome, env, u);
    }
  }

  lemma ProductSelectionKeeps(s: Session, w: World, choice: Choice, env: Env, u: Universe)
    requires WellFormed(s, u, env.maxErrors) && EnvOk(s.phone, w, env, u)
    requires DbOk(w.committed, u) && DbOk(w.working, u)
    requires s.state == ANALYTICS_PRODUCT_SELECTION && ChoiceOk(choice, u.shopOf(s.phone), u)
    ensures Keeps(s, ProductSelected(s, w, choice, env), u, env.maxErrors)
  {
    hide Execute, Validate, PossibleRows;
    ShopIsOwn(w, s.phone, env, u);
    MoveKeepsWalk(s, IDLE, env.now);
  }

  lemma ReportKeeps(s: Session, w: World, env: Env, u: Universe)
    requires WellFormed(s, u, env.maxErrors) && EnvOk(s.phone, w, env, u)
    requires DbOk(w.committed, u) && DbOk(w.working, u)
    requires s.state == IDLE
    ensures Keeps(s, HandleReport(s, w, env), u, env.maxErrors)
  {
    ShopIsOwn(w, s.phone, env, u);
    MoveKeepsWalk(s, REPORT_PENDING, env.now);
    var reporting := Transition(s, REPORT_PENDING, env.now);
    MoveKeepsWalk(reporting, IDLE, env.now);
  }

  lemma StartKeeps(s: Session, w: World, env: Env, u: Universe)
    requires WellFormed(s, u, env.maxErrors) && EnvOk(s.phone, w, env, u)
    requires DbOk(w.committed, u) && DbOk(w.working, u)
    requires s.state == IDLE && !env.intent.UnknownText?
    ensures Keeps(s, StartFlow(s, w, env), u, env.maxErrors)
  {
    var started := s.(context := s.context.(flowStartedAt := Some(env.now)));
    assert Path(started) == Path(s);
    match env.intent {
      case RecordSale => MoveKeepsWalk(started, RECORD_SALE_PRODUCT, env.now);
      case CheckStock => MoveKeepsWalk(started, CHECK_STOCK_PRODUCT, env.now);
      case AddProduct => MoveKeepsWalk(started, ADD_PRODUCT_NAME, env.now);
      case GenerateReport => ReportKeeps(started, w, env, u);
    }
  }

  lemma IdleKeeps(s: Session, w: World, text: string, env: Env, u: Universe)
    requires WellFormed(s, u, env.maxErrors) && EnvOk(s.phone, w, env, u)
    requires DbOk(w.committed, u) && DbOk(w.working, u)
    requires s.state == IDLE
    ensures Keeps(s, HandleIdle(s, w, text, env), u, env.maxErrors)
  {
    if env.intent.UnknownText? {
      QueryKeeps(s, w, text, env, u);
    } else {
      StartKeeps(s, w, env, u);
    }
  }

  lemma ChoicesAreOwn(s: Session, text: string, u: Universe)
    requires Choosable(s.context.candidates, u.shopOf(s.phone), u)
    ensures ChoiceOk(ResolveChoice(s.context, text), u.shopOf(s.phone), u)
  {
  }

  lemma HandleKeeps(s: Session, w: World, text: string, env: Env, u: Universe)
    requires WellFormed(s, u, env.maxErrors) && EnvOk(s.phone, w, env, u)
    requires DbOk(w.committed, u) && DbOk(w.working, u)
    ensures Keeps(s, Handle(s, w, text, env), u, env.maxErrors)
  {
    match s.state {
      case ADD_PRODUCT_NAME => NameKeeps(s, w, ParseProductName(text), env, u);
      case ADD_PRODUCT_PRICE => PriceKeeps(s, w, ParsePrice(text), env, u);
      case ADD_PRODUCT_QTY => QtyKeeps(s, w, ParseQuantity(text), env, u);
      case CONFIRM_ADD_PRODUCT => ConfirmAddKeeps(s, w, ParseConfirmation(text), env, u);
      case RECORD_SALE_PRODUCT => SaleNameKeeps(s, w, text, env, u);
      case RECORD_SALE_PRODUCT_SELECTION =>
        ChoicesAreOwn(s, text, u);
        SaleSelectionKeeps(s, w, ResolveChoice(s.context, text), env, u);
      case RECORD_SALE_QTY => SaleQtyKeeps(s, w, ParseQuantity(text), env, u);
      case CONFIRM_SALE => ConfirmSaleKeeps(s, w, ParseConfirmation(text), env, u);
      case CHECK_STOCK_PRODUCT => StockNameKeeps(s, w, ParseProductName(text), env, u);
      case CHECK_STOCK_PRODUCT_SELECTION =>
        ChoicesAreOwn(s, text, u);
        StockSelectionKeeps(s, w, ResolveChoice(s.context, text), env, u);
      case ANALYTICS_PRODUCT_SELECTION =>
        ChoicesAreOwn(s, text, u);
        ProductSelectionKeeps(s, w, ResolveChoice(s.context, text), env, u);
      case IDLE => IdleKeeps(s, w, text, env, u);
      case _ =>
    }
  }

  lemma SettleKeeps(s: Session, h: Handled, env: Env, u: Universe)
    requires WellFormed(s, u, env.maxErrors) && Keeps(s, h, u, env.maxErrors)
    requires h.reply.Invalid? ==> h.session == s
    ensures Keeps(s, Settle(h, env), u, env.maxErrors)
  {
    if h.reply.Invalid? {
      var counted := s.(context := s.context.(errorCount := s.context.errorCount + 1));
      assert Path(counted) == Path(s);
      IdleIsWellFormed(counted, env.now, u, env.maxErrors);
    } else if h.reply.Done? {
      assert Path(Settle(h, env).session) == Path(h.session);
    }
  }

  /** From every well-formed session, every message in every environment leads to a well-formed
      session, along an edge of the graph, with a history that only grows; and no branch for a lost,
      corrupted or foreign context can fire. */
  lemma MessageKeepsInvariant(s: Session, w: World, text: string, env: Env, u: Universe)
    requires WellFormed(s, u, env.maxErrors) && EnvOk(s.phone, w, env, u)
    requires DbOk(w.committed, u) && DbOk(w.working, u)
    ensures Keeps(s, Process(s, w, text, env), u, env.maxErrors)
  {
    if IsOverride(text) {
      IdleIsWellFormed(s, env.now, u, env.maxErrors);
    } else {
      HandleKeeps(s, w, text, env, u);
      SettleKeeps(s, Handle(s, w, text, env), env, u);
    }
  }
}
