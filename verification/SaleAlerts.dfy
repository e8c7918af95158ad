/** When a confirmed sale is kept and when its low-stock alert goes out. The decision record asks for
    the alert after the commit; the flow enqueues it before (app/fsm/flows/record_sale.py,
    app/core/database.py, docs/adr/007-best-effort-low-stock-alert-enqueue.md). */
module SaleAlerts {
  import opened Text
  import opened Inputs
  import opened Resolver
  import opened Ledger
  import opened Analytics
  import opened Conversation
  import opened SessionInvariant
  import opened Worker

  /** A session in which saying yes records a sale. */
  predicate ReadyToSell(s: Session, db: DbState, now: int) {
    && s.state == SessionState.CONFIRM_SALE && HasProduct(s.context)
    && s.context.productQty.Some? && s.context.shopId.Some?
    && SaleOf(s, db, now).Ok?
  }

  function SaleOf(s: Session, db: DbState, now: int): Outcome<(DbState, StockDeduction)>
    requires s.context.productId.Some? && s.context.productQty.Some? && s.context.shopId.Some?
  {
    RecordedSale(db, s.context.shopId.value, s.context.productId.value, s.context.productQty.value, now)
  }

  /** The product is there to be sold: what confirming needs, apart from enough stock. */
  predicate Offered(s: Session, db: DbState) {
    && s.state == SessionState.CONFIRM_SALE && HasProduct(s.context)
    && s.context.productQty.Some? && s.context.shopId.Some?
    && var id, quantity := s.context.productId.value, s.context.productQty.value;
    && InShop(db.products, s.context.shopId.value, id) && id in db.inventory
    && quantity > 0 && 0 <= db.inventory[id].quantity <= INTEGER_MAX
    && quantity * db.products[id].price <= NUMERIC_MAX
  }

  /** The stored row is above its threshold, and the sale would take it to the threshold or below. */
  predicate EntersLow(s: Session, db: DbState) {
    && s.context.productId.Some? && s.context.productQty.Some? && s.context.productId.value in db.inventory
    && var row := db.inventory[s.context.productId.value];
    row.threshold < row.quantity && row.quantity - s.context.productQty.value <= row.threshold
  }

  /** An offered sale goes through exactly when the stored row covers it; what it leaves, and what it
      answers about low stock, follow from that row. */
  lemma SaleGoesThroughIff(s: Session, db: DbState, now: int)
    requires Offered(s, db)
    ensures var id, quantity := s.context.productId.value, s.context.productQty.value;
            var row := db.inventory[id];
            && (ReadyToSell(s, db, now) <==> quantity <= row.quantity)
            && (quantity > row.quantity ==> SaleOf(s, db, now) == Failed(NotEnoughStock))
            && (quantity <= row.quantity ==>
                  SaleOf(s, db, now).value.0 == db.(
                    inventory := db.inventory[id := row.(quantity := row.quantity - quantity)],
                    sales := db.sales + [Sale(s.context.shopId.value, id, quantity, db.products[id].price, now)]))
  {
  }

  lemma LowStockAnswer(s: Session, db: DbState, now: int)
    requires ReadyToSell(s, db, now)
    ensures SaleOf(s, db, now).value.1.enteredLowStock <==> EntersLow(s, db)
  {
  }

  function AlertFor(s: Session, stock: StockDeduction): Task
    requires s.context.productId.Some?
  {
    LowStockAlert(s.phone, s.context.productId.value, stock.remaining)
  }

  /** A confirmed sale is committed whole or not at all. It is committed exactly when the reply and the
      commit go through and no alert had to be enqueued in vain; its alert goes out exactly when stock
      became low and the broker took the task, whether or not the sale is then kept. */
  lemma SaleKeptAndAlertSent(s: Session, db: DbState, text: string, env: Env)
    requires ReadyToSell(s, db, env.now) && ParseConfirmation(text) == Parsed.Good(true)
    ensures var (sold, stock) := SaleOf(s, db, env.now).value;
            var service := Serve(s, db, text, env);
            var alertFails := EntersLow(s, db) && AlertEnqueue in env.faults;
            && sold != db
            && (service.db == sold <==> !alertFails && LocaleRead !in env.faults && FinalCommit !in env.faults)
            && (service.db == sold || service.db == db)
            && service.tasks == (if EntersLow(s, db) && !alertFails then [AlertFor(s, stock)] else [])
            && (service.session.Some? <==> service.db == sold)
  {
    hide ParseConfirmation, RecordedSale;
    LowStockAnswer(s, db, env.now);
    assert !IsOverride(text) by {
      AnswerIsNoOverride(text);
    }
    var (sold, stock) := SaleOf(s, db, env.now).value;
    SaleChangesDb(s, db, env.now);
    assert Handle(s, World(db, db, []), text, env) == SaleConfirmed(s, World(db, db, []), Parsed.Good(true), env);
  }

  lemma AnswerIsNoOverride(text: string)
    requires ParseConfirmation(text).Good?
    ensures !IsOverride(text)
  {
  }

  lemma SaleChangesDb(s: Session, db: DbState, now: int)
    requires ReadyToSell(s, db, now)
    ensures |SaleOf(s, db, now).value.0.sales| == |db.sales| + 1
  {
  }

  /** A no cancels the sale: the database and the tasks stay as they are, and nothing of the draft is left. */
  lemma NoCancelsSale(s: Session, db: DbState, text: string, env: Env)
    requires s.state == SessionState.CONFIRM_SALE && ParseConfirmation(text) == Parsed.Good(false)
    ensures var service := Serve(s, db, text, env);
            && service.db == db && service.tasks == [] && service.reply == Done(SaleCancelled)
            && (service.session.Some? <==> LocaleRead !in env.faults && FinalCommit !in env.faults)
            && (service.session.Some? ==> ResetFrom(s, service.session.value, env.now))
  {
    hide ParseConfirmation, IsOverride;
    AnswerIsNoOverride(text);
    assert Handle(s, World(db, db, []), text, env) == SaleConfirmed(s, World(db, db, []), Parsed.Good(false), env);
  }

  /** A confirmed sale that the database refuses stores nothing. What the catalogue or the stock table lacks
      counts as a wrong message, and the session stays; a lack of stock fails the task. */
  lemma RefusedSaleStoresNothing(s: Session, db: DbState, text: string, env: Env)
    requires s.state == SessionState.CONFIRM_SALE && ParseConfirmation(text) == Parsed.Good(true)
    requires HasProduct(s.context) && s.context.productQty.Some? && s.context.shopId.Some?
    requires SaleOf(s, db, env.now).Failed?
    ensures var service, error := Serve(s, db, text, env), SaleOf(s, db, env.now).error;
            && service.db == db && service.tasks == []
            && (error == NotEnoughStock || error == StorageError ==>
                  service.reply == Escaped(DbEscape(error)) && service.session.None?)
            && (error != NotEnoughStock && error != StorageError ==>
                  if s.context.errorCount + 1 >= env.maxErrors then service.reply == Done(TooManyInvalid)
                  else service.reply == Invalid(UnknownError, Some(error)))
            && (service.session.Some? && service.reply.Invalid? ==>
                  service.session.value == s.(context := s.context.(errorCount := s.context.errorCount + 1)))
  {
    hide ParseConfirmation, RecordedSale, IsOverride;
    AnswerIsNoOverride(text);
    assert Handle(s, World(db, db, []), text, env) == SaleConfirmed(s, World(db, db, []), Parsed.Good(true), env);
  }

  /** All that makes a message sell: its text is a yes, its session and the database are ready to sell, and
      neither the alert, if there has to be one, nor the reply nor the commit fails. */
  predicate Sells(s: Session, db: DbState, text: string, env: Env) {
    && ParseConfirmation(text) == Parsed.Good(true) && ReadyToSell(s, db, env.now)
    && (EntersLow(s, db) ==> AlertEnqueue !in env.faults)
    && LocaleRead !in env.faults && FinalCommit !in env.faults
  }

  /** From every session, in every state, a message adds to the sales exactly when it sells, and then it adds
      the one confirmed row. */
  lemma MessageSellsIff(s: Session, db: DbState, text: string, env: Env)
    ensures var service := Serve(s, db, text, env);
            if Sells(s, db, text, env) then
              service.db == SaleOf(s, db, env.now).value.0 && |service.db.sales| == |db.sales| + 1
            else service.db.sales == db.sales
  {
    hide ParseConfirmation, Process, SaleOf;
    var answer := ParseConfirmation(text);
    if answer == Parsed.Good(true) && ReadyToSell(s, db, env.now) {
      SaleKeptAndAlertSent(s, db, text, env);
      SaleChangesDb(s, db, env.now);
    } else {
      NotReadyNotSold(s, db, text, env);
    }
  }

  lemma NotReadyNotSold(s: Session, db: DbState, text: string, env: Env)
    requires ParseConfirmation(text) != Parsed.Good(true) || !ReadyToSell(s, db, env.now)
    ensures Serve(s, db, text, env).db.sales == db.sales
  {
    hide ParseConfirmation, RecordedSale, IsOverride;
    var w := World(db, db, []);
    if s.state == SessionState.CONFIRM_SALE {
      assert Handle(s, w, text, env) == SaleConfirmed(s, w, ParseConfirmation(text), env);
    }
  }

  /** The decision record promises that a sale survives a failed notification. That holds of a confirmed
      sale exactly when the sale does not push the product into low stock: not when the stored row is
      above its threshold and the sale takes it to the threshold or below. */
  lemma NotificationFailureIsHarmlessIff(s: Session, db: DbState, text: string, env: Env)
    requires ReadyToSell(s, db, env.now) && ParseConfirmation(text) == Parsed.Good(true)
    requires env.faults == {AlertEnqueue}
    ensures Serve(s, db, text, env).db == SaleOf(s, db, env.now).value.0 <==> !EntersLow(s, db)
  {
    SaleKeptAndAlertSent(s, db, text, env);
  }
}
