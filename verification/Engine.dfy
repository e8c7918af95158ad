/** FSMEngine and its flows as they run: a session object updated in place, a database session, and
    an outbox of background tasks. Every method is verified against its function in Conversation. */
module Engine {
  import opened Text
  import opened Inputs
  import opened Resolver
  import opened Ledger
  import opened Analytics
  import opened Conversation

  class UserSession {
    const phone: string
    var state: SessionState
    var context: Context

    constructor (s: Session)
      ensures View() == s
    {
      phone, state, context := s.phone, s.state, s.context;
    }

    function View(): Session
      reads this
    {
      Session(phone, state, context)
    }

    /** FSMPrimitives._transition */
    method Transition(to: SessionState, now: int)
      modifies this
      ensures View() == Conversation.Transition(old(View()), to, now)
    {
      if state != to {
        context := context.(history := context.history + [state]);
        state := to;
      }
      context := context.(lastActivity := Some(now));
    }

    /** FSMPrimitives._clear_context_preserving_history */
    method ClearContext(now: int)
      modifies this
      ensures View() == Conversation.ClearContext(old(View()), now)
    {
      var history := context.history;
      context := NEW_CONTEXT.(shopId := context.shopId, history := history, lastActivity := Some(now));
    }

    method BackToIdle(now: int)
      modifies this
      ensures View() == Conversation.BackToIdle(old(View()), now)
    {
      Transition(IDLE, now);
      ClearContext(now);
    }

    method TakeProduct(m: ScoredProductMatch)
      modifies this
      ensures View() == old(View()).(context := WithProduct(old(context), m))
    {
      context := context.(productId := Some(m.id));
      context := context.(productName := Some(m.name));
      context := context.(productPrice := Some(m.price));
    }

    /** FSMPrimitives._resolve_product_choice */
    method ResolveProductChoice(text: string) returns (choice: Choice)
      ensures choice == ResolveChoice(context, text)
    {
      if context.candidates == [] {
        return NotChosen(SessionContextLost);
      }
      match ParseInt(text)
      case None => choice := NotChosen(InvalidChoice);
      case Some(n) =>
        if n < 1 || n > |context.candidates| {
          choice := NotChosen(InvalidChoice);
        } else {
          choice := Chosen(context.candidates[n - 1]);
        }
    }
  }

  class Outbox {
    var tasks: seq<Task>

    constructor ()
      ensures tasks == []
    {
      tasks := [];
    }

    method Enqueue(task: Task)
      modifies this
      ensures tasks == old(tasks) + [task]
    {
      tasks := tasks + [task];
    }
  }

  /** What the caller can rely on: the reply, the commits and the tasks always; the session and the
      open transaction only when no exception escapes, since they are then thrown away. */
  ghost predicate Agrees(h: Handled, s: Session, w: World, r: Reply) {
    && r == h.reply && w.committed == h.world.committed && w.tasks == h.world.tasks
    && (!r.Escaped? ==> s == h.session && w == h.world)
  }

  class FSMEngine {
    const db: Database
    const outbox: Outbox
    const env: Env

    constructor (db: Database, outbox: Outbox, env: Env)
      ensures this.db == db && this.outbox == outbox && this.env == env
    {
      this.db, this.outbox, this.env := db, outbox, env;
    }

    function Seen(): World
      reads db, outbox
    {
      World(db.committed, db.working, outbox.tasks)
    }

    method GetShopId(phone: string) returns (shop: Option<Uuid>)
      modifies db
      ensures match Conversation.GetShopId(old(Seen()), phone, env)
              case None => shop == None && Seen() == old(Seen())
              case Some((after, id)) => shop == Some(id) && Seen() == after
    {
      if ShopLookup in env.faults {
        return None;
      }
      if phone in db.working.shops {
        return Some(db.working.shops[phone]);
      }
      db.working := db.working.(shops := db.working.shops[phone := env.newShopId]);
      db.Commit();
      shop := Some(env.newShopId);
    }

    // ------------------------------------------------------- adding a product

    method HandleName(session: UserSession, text: string) returns (r: Reply)
      modifies session, db, outbox
      ensures Agrees(Conversation.HandleName(old(session.View()), old(Seen()), text, env), session.View(), Seen(), r)
    {
      match ParseProductName(text)
      case Bad(key) => r := Invalid(key, None);
      case Raises => r := Escaped(ParseCrash);
      case Good(name) =>
        session.context := session.context.(productName := Some(name));
        session.Transition(ADD_PRODUCT_PRICE, env.now);
        r := Done(AskPrice);
    }

    method HandlePrice(session: UserSession, text: string) returns (r: Reply)
      modifies session, db, outbox
      ensures Agrees(Conversation.HandlePrice(old(session.View()), old(Seen()), text, env), session.View(), Seen(), r)
    {
      match ParsePrice(text)
      case Bad(key) => r := Invalid(key, None);
      case Raises => r := Escaped(ParseCrash);
      case Good(price) =>
        session.context := session.context.(productPrice := Some(price));
        session.Transition(ADD_PRODUCT_QTY, env.now);
        r := Done(AskStockQuantity);
    }

    method HandleQty(session: UserSession, text: string) returns (r: Reply)
      modifies session, db, outbox
      ensures Agrees(Conversation.HandleQty(old(session.View()), old(Seen()), text, env), session.View(), Seen(), r)
    {
      if session.context.productName.None? || session.context.productPrice.None? {
        return Invalid(SessionContextLost, None);
      }
      match ParseQuantity(text)
      case Bad(key) => r := Invalid(key, None);
      case Raises => r := Escaped(ParseCrash);
      case Good(quantity) =>
        session.context := session.context.(productQty := Some(quantity));
        session.Transition(CONFIRM_ADD_PRODUCT, env.now);
        r := Done(ConfirmProduct);
    }

    method PersistProduct(session: UserSession) returns (problem: Option<Escape>)
      requires session.context.productName.Some? && session.context.productPrice.Some?
      requires session.context.productQty.Some?
      modifies session, db
      ensures outbox.tasks == old(outbox.tasks)
      ensures var (after, expected, shopId) :=
                Conversation.PersistProduct(old(session.context), old(Seen()), session.phone, env);
              && problem == expected && db.committed == after.committed
              && (problem.None? ==>
                    && Seen() == after
                    && session.View() == old(session.View()).(context := old(session.context).(shopId := Some(shopId))))
    {
      if session.context.shopId.None? {
        var shop := GetShopId(session.phone);
        if shop.None? {
          return Some(Infrastructure);
        }
        session.context := session.context.(shopId := shop);
      }
      var shopId := session.context.shopId.value;
      var price, quantity := session.context.productPrice.value, session.context.productQty.value;
      if price <= 0 || price > NUMERIC_MAX {
        return Some(DbEscape(StorageError));
      }
      if ProductInsert in env.faults {
        db.Rollback();
        return Some(AlreadyExists);
      }
      var product := Product(shopId, session.context.productName.value, price);
      db.working := db.working.(products := db.working.products[env.newProductId := product]);
      db.Commit();
      if quantity > 0 {
        var finish := if StockCommit in env.faults then CommitFails
                      else if StockRefresh in env.faults then RefreshFails
                      else Finishes(d => d);
        var stocked := db.UpdateStock(env.newProductId, Restock(quantity), true, finish);
        if stocked.Failed? {
          return Some(DbEscape(stocked.error));
        }
      }
      problem := None;
    }

    method HandleConfirmAdd(session: UserSession, text: string) returns (r: Reply)
      modifies session, db, outbox
      ensures Agrees(Conversation.HandleConfirmAdd(old(session.View()), old(Seen()), text, env),
                     session.View(), Seen(), r)
    {
      match ParseConfirmation(text)
      case Bad(key) => r := Invalid(key, None);
      case Raises => r := Escaped(ParseCrash);
      case Good(confirmed) =>
        if !confirmed {
          session.BackToIdle(env.now);
          return Done(ProductCancelled);
        }
        var c := session.context;
        if c.productName.None? || c.productPrice.None? || c.productQty.None? {
          return Invalid(SessionContextLost, None);
        }
        var problem := PersistProduct(session);
        if problem.Some? {
          return Escaped(problem.value);
        }
        session.BackToIdle(env.now);
        r := Done(ProductAdded);
    }

    // ------------------------------------------------------- recording a sale

    method HandleSaleName(session: UserSession, text: string) returns (r: Reply)
      modifies session, db, outbox
      ensures Agrees(Conversation.HandleSaleName(old(session.View()), old(Seen()), text, env),
                     session.View(), Seen(), r)
    {
      var shop := GetShopId(session.phone);
      if shop.None? || FuzzyQuery in env.faults {
        return Escaped(Infrastructure);
      }
      session.context := session.context.(shopId := shop);
      match FindByFuzzyName(env.rows, DEFAULTS)
      case ExactMatch(product) =>
        session.TakeProduct(product);
        session.Transition(RECORD_SALE_QTY, env.now);
        r := Done(AskSaleQuantity);
      case Ambiguous(candidates) =>
        session.context := session.context.(candidates := candidates);
        session.Transition(RECORD_SALE_PRODUCT_SELECTION, env.now);
        r := Done(ProductChoices);
      case NotFound => r := Done(ProductNotFound);
    }

    method HandleSaleSelection(session: UserSession, text: string) returns (r: Reply)
      modifies session, db, outbox
      ensures Agrees(Conversation.HandleSaleSelection(old(session.View()), old(Seen()), text, env),
                     session.View(), Seen(), r)
    {
      var choice := session.ResolveProductChoice(text);
      match choice
      case NotChosen(key) => r := Invalid(key, None);
      case Chosen(product) =>
        session.TakeProduct(product);
        session.Transition(RECORD_SALE_QTY, env.now);
        session.context := session.context.(candidates := []);
        r := Done(AskQuantity);
    }

    method HandleSaleQty(session: UserSession, text: string) returns (r: Reply)
      modifies session, db, outbox
      ensures Agrees(Conversation.HandleSaleQty(old(session.View()), old(Seen()), text, env), session.View(), Seen(), r)
    {
      match ParseQuantity(text)
      case Bad(key) => r := Invalid(key, None);
      case Raises => r := Escaped(ParseCrash);
      case Good(quantity) =>
        if quantity <= 0 {
          return Invalid(QuantityTooLow, None);
        }
        if !HasProduct(session.context) || session.context.productPrice.None? {
          return Escaped(CorruptedSession);
        }
        if StockRead in env.faults {
          return Escaped(Infrastructure);
        }
        var id := session.context.productId.value;
        if id !in db.working.inventory {
          return Escaped(DbEscape(InventoryMissing));
        }
        if quantity > db.working.inventory[id].quantity {
          return Invalid(InsufficientStock(db.working.inventory[id].quantity), None);
        }
        session.context := session.context.(productQty := Some(quantity));
        session.Transition(SessionState.CONFIRM_SALE, env.now);
        r := Done(ConfirmSale);
    }

    method HandleConfirmSale(session: UserSession, text: string) returns (r: Reply)
      modifies session, db, outbox
      ensures Agrees(Conversation.HandleConfirmSale(old(session.View()), old(Seen()), text, env),
                     session.View(), Seen(), r)
    {
      match ParseConfirmation(text)
      case Bad(key) => r := Invalid(key, None);
      case Raises => r := Escaped(ParseCrash);
      case Good(confirmed) =>
        if !confirmed {
          session.BackToIdle(env.now);
          return Done(SaleCancelled);
        }
        var c := session.context;
        if !HasProduct(c) || c.productQty.None? || c.shopId.None? {
          return Escaped(CorruptedSession);
        }
        var sale := db.RecordSale(c.shopId.value, c.productId.value, c.productQty.value, env.now);
        match sale {
          case Failed(error) =>
            if error in {ProductMissing, InventoryMissing, ShopConflict} {
              return Invalid(UnknownError, Some(error));
            }
            return Escaped(DbEscape(error));
          case Ok(result) =>
            session.BackToIdle(env.now);
            if result.enteredLowStock {
              if AlertEnqueue in env.faults {
                return Escaped(Infrastructure);
              }
              outbox.Enqueue(LowStockAlert(session.phone, c.productId.value, result.remaining));
            }
            r := Done(SaleRecorded);
        }
    }

    // ---------------------------------------------------------- stock look-up

    method ReportStock(session: UserSession, product: ScoredProductMatch) returns (r: Reply)
      modifies session
      ensures Agrees(Conversation.ReportStock(old(session.View()), old(Seen()), product, env),
                     session.View(), Seen(), r)
      ensures Seen() == old(Seen())
    {
      if StockRead in env.faults {
        return Escaped(Infrastructure);
      }
      if product.id !in db.working.inventory {
        return Escaped(DbEscape(InventoryMissing));
      }
      session.BackToIdle(env.now);
      r := Done(StockRemaining(product.name, db.working.inventory[product.id].quantity));
    }

    method HandleStockName(session: UserSession, text: string) returns (r: Reply)
      modifies session, db, outbox
      ensures Agrees(Conversation.HandleStockName(old(session.View()), old(Seen()), text, env),
                     session.View(), Seen(), r)
    {
      match ParseProductName(text)
      case Bad(key) => r := Invalid(key, None);
      case Raises => r := Escaped(ParseCrash);
      case Good(name) =>
        var shop := GetShopId(session.phone);
        if shop.None? || FuzzyQuery in env.faults {
          return Escaped(Infrastructure);
        }
        session.context := session.context.(shopId := shop);
        match FindByFuzzyName(env.rows, DEFAULTS) {
          case NotFound =>
            session.context := session.context.(candidates := []);
            r := Done(StockNotFound);
          case Ambiguous(candidates) =>
            session.context := session.context.(candidates := candidates);
            session.Transition(CHECK_STOCK_PRODUCT_SELECTION, env.now);
            r := Done(ProductChoices);
          case ExactMatch(product) =>
            r := ReportStock(session, product);
        }
    }

    method HandleStockSelection(session: UserSession, text: string) returns (r: Reply)
      modifies session, db, outbox
      ensures Agrees(Conversation.HandleStockSelection(old(session.View()), old(Seen()), text, env),
                     session.View(), Seen(), r)
    {
      var choice := session.ResolveProductChoice(text);
      match choice
      case NotChosen(key) => r := Invalid(key, None);
      case Chosen(product) =>
        session.TakeProduct(product);
        r := ReportStock(session, product);
    }

    // -------------------------------------------------------------- analytics

    method HandleQuery(session: UserSession, text: string) returns (r: Reply)
      modifies session, db, outbox
      ensures Agrees(Conversation.HandleQuery(old(session.View()), old(Seen()), text, env), session.View(), Seen(), r)
    {
      var shop := GetShopId(session.phone);
      if shop.None? {
        return Escaped(Infrastructure);
      }
      session.context := session.context.(shopId := shop);
      var prior := None;
      if HasFreshContext(session.context, env) {
        prior := Some(session.context.lastCall.value.call);
      }
      var execute := ExecutorIn(Seen(), shop.value, env);
      var outcome, asked, executed := Run(env.replies, execute, DEFAULT_TOOLS, text, prior);
      match outcome {
        case NeedsSelection(call, candidates) =>
          session.Transition(ANALYTICS_PRODUCT_SELECTION, env.now);
          session.context := session.context.(candidates := candidates);
          session.context := session.context.(pending := Some(PendingCall(call, candidates)));
          session.context := session.context.(errorCount := 0);
        case Answered(call, _) =>
          session.context := session.context.(errorCount := 0);
          session.context := session.context.(lastCall := Some(SuccessfulCall(call, env.now)));
        case AnsweredEmpty(call, _) =>
          session.context := session.context.(errorCount := 0);
          session.context := session.context.(lastCall := Some(SuccessfulCall(call, env.now)));
        case _ =>
      }
      r := Done(AnalyticsKey(outcome));
    }

    method HandleProductSelection(session: UserSession, text: string) returns (r: Reply)
      modifies session, db, outbox
      ensures Agrees(Conversation.HandleProductSelection(old(session.View()), old(Seen()), text, env),
                     session.View(), Seen(), r)
    {
      var choice := session.ResolveProductChoice(text);
      match choice
      case NotChosen(key) => r := Invalid(key, None);
      case Chosen(product) =>
        if session.context.pending.None? {
          session.BackToIdle(env.now);
          return Done(SessionContextLost);
        }
        var call := Resumed(session.context.pending.value.call, product, env.choiceIdText);
        var shop := GetShopId(session.phone);
        if shop.None? {
          return Escaped(Infrastructure);
        }
        var result := Execute(DEFAULT_TOOLS, call, shop.value, AroundTool(Seen(), env, 0)).result;
        if result.Success? {
          var info := call.(args := OrElse(result.validated, call.args));
          session.context := session.context.(lastCall := Some(SuccessfulCall(info, env.now)));
        }
        session.context := session.context.(pending := None);
        session.context := session.context.(candidates := []);
        session.Transition(IDLE, env.now);
        r := Done(AnalyticsKey(ResumedOutcome(call, result)));
    }

    // ----------------------------------------------------------------- engine

    method HandleReport(session: UserSession) returns (r: Reply)
      modifies session, db, outbox
      ensures Agrees(Conversation.HandleReport(old(session.View()), old(Seen()), env), session.View(), Seen(), r)
    {
      session.Transition(REPORT_PENDING, env.now);
      if session.context.shopId.None? {
        var shop := GetShopId(session.phone);
        if shop.None? {
          return Escaped(Infrastructure);
        }
        session.context := session.context.(shopId := shop);
      }
      if ReportEnqueue in env.faults {
        return Escaped(Infrastructure);
      }
      outbox.Enqueue(DailyReport(session.phone, session.context.shopId.value));
      session.Transition(IDLE, env.now);
      r := Done(ReportGenerating);
    }

    method HandleIdle(session: UserSession, text: string) returns (r: Reply)
      modifies session, db, outbox
      ensures Agrees(Conversation.HandleIdle(old(session.View()), old(Seen()), text, env), session.View(), Seen(), r)
    {
      if env.intent.UnknownText? {
        if CanRoute(session.context, text, env) {
          r := HandleQuery(session, text);
        } else {
          r := Invalid(UnknownIntent, None);
        }
        return;
      }
      session.context := session.context.(flowStartedAt := Some(env.now));
      if env.intent == RecordSale {
        session.Transition(RECORD_SALE_PRODUCT, env.now);
        return Done(StartSale);
      }
      if env.intent == CheckStock {
        session.Transition(CHECK_STOCK_PRODUCT, env.now);
        return Done(StartStockCheck);
      }
      if env.intent == GenerateReport {
        r := HandleReport(session);
        return;
      }
      session.Transition(ADD_PRODUCT_NAME, env.now);
      r := Done(StartAddProduct);
    }

    method Dispatch(session: UserSession, text: string) returns (r: Reply)
      modifies session, db, outbox
      ensures Agrees(Conversation.Handle(old(session.View()), old(Seen()), text, env), session.View(), Seen(), r)
    {
      match session.state
      case ADD_PRODUCT_NAME => r := HandleName(session, text);
      case ADD_PRODUCT_PRICE => r := HandlePrice(session, text);
      case ADD_PRODUCT_QTY => r := HandleQty(session, text);
      case CONFIRM_ADD_PRODUCT => r := HandleConfirmAdd(session, text);
      case RECORD_SALE_PRODUCT => r := HandleSaleName(session, text);
      case RECORD_SALE_PRODUCT_SELECTION => r := HandleSaleSelection(session, text);
      case RECORD_SALE_QTY => r := HandleSaleQty(session, text);
      case CONFIRM_SALE => r := HandleConfirmSale(session, text);
      case CHECK_STOCK_PRODUCT => r := HandleStockName(session, text);
      case CHECK_STOCK_PRODUCT_SELECTION => r := HandleStockSelection(session, text);
      case ANALYTICS_PRODUCT_SELECTION => r := HandleProductSelection(session, text);
      case _ => r := HandleIdle(session, text);
    }

    /** FSMEngine.process_message */
    method ProcessMessage(session: UserSession, text: string) returns (r: Reply)
      modifies session, db, outbox
      ensures Agrees(Process(old(session.View()), old(Seen()), text, env), session.View(), Seen(), r)
    {
      if IsOverride(text) {
        session.BackToIdle(env.now);
        return Done(FlowCancelled);
      }
      r := Dispatch(session, text);
      match r
      case Escaped(_) =>
      case Done(_) =>
        session.context := session.context.(errorCount := 0);
      case Invalid(_, _) =>
        session.context := session.context.(errorCount := session.context.errorCount + 1);
        if session.context.errorCount >= env.maxErrors {
          session.BackToIdle(env.now);
          r := Done(TooManyInvalid);
        }
    }
  }
}
