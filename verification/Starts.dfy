/** What an idle session does with a message: commands, the four flows, and the daily report
    (app/fsm/engine.py, app/fsm/flows/generate_report.py). */
module Starts {
  import opened Text
  import opened Inputs
  import opened InputLaws
  import opened Resolver
  import opened Ledger
  import opened Analytics
  import opened Conversation
  import opened SessionInvariant
  import opened Worker
  import opened Journeys

  /** The worker's reply and commit go through. */
  predicate Ends(env: Env) {
    LocaleRead !in env.faults && FinalCommit !in env.faults
  }

  // ------------------------------------------------------------------ commands

  lemma OnlyCommandsCancel(s: Session, w: World, text: string, env: Env)
    ensures Process(s, w, text, env).reply == Done(FlowCancelled) <==> IsOverride(text)
  {
    hide ParseProductName, ParsePrice, ParseQuantity, ParseConfirmation, GetShopId, RecordedSale, IsOverride;
    hide PersistProduct, FindByFuzzyName, CanRoute, ParseInt, HandleQuery, ProductSelected;
    hide HandleSaleName, StockNameGiven;
    QueriesNeverCancel(s, w, text, env);
    NamesNeverCancel(s, w, text, env);
  }

  lemma QueriesNeverCancel(s: Session, w: World, text: string, env: Env)
    ensures HandleQuery(s, w, text, env).reply != Done(FlowCancelled)
    ensures ProductSelected(s, w, ResolveChoice(s.context, text), env).reply != Done(FlowCancelled)
  {
    hide Orchestrated, ExecutorIn, GetShopId, ResolveChoice, HasFreshContext, NoSale;
  }

  lemma NamesNeverCancel(s: Session, w: World, text: string, env: Env)
    ensures HandleSaleName(s, w, text, env).reply != Done(FlowCancelled)
    ensures StockNameGiven(s, w, ParseProductName(text), env).reply != Done(FlowCancelled)
  {
    hide ParseProductName, GetShopId, FindByFuzzyName;
  }

  /** Four words, in any case and with any space around them, break off a conversation in whatever state it is:
      nothing is stored and nothing of the draft is left. No other word does. */
  lemma CommandsCancel(s: Session, db: DbState, before: string, word: string, after: string, env: Env)
    requires AllSpace(before) && AllSpace(after) && Tight(word)
    ensures var service := Serve(s, db, before + word + after, env);
            && (service.reply == Done(FlowCancelled) <==> ToLower(word) in {"cancel", "menu", "exit", "stop"})
            && (service.reply == Done(FlowCancelled) ==>
                  && service.db == db && service.tasks == [] && (service.session.Some? <==> Ends(env))
                  && (service.session.Some? ==> ResetFrom(s, service.session.value, env.now)))
  {
    hide Handle, Settle;
    var text := before + word + after;
    StripPadded(before, word, after);
    OnlyCommandsCancel(s, World(db, db, []), text, env);
  }

  // --------------------------------------------------------------------- flows

  /** The session has moved to `state` and holds what it held. */
  predicate MovedTo(before: Session, after: Session, state: SessionState, now: int) {
    && after.phone == before.phone && after.state == state
    && after.context == before.context.(
         flowStartedAt := Some(now), history := before.context.history + [before.state],
         lastActivity := Some(now), errorCount := 0)
  }

  /** The first question of each flow. */
  predicate StartsWithQuestion(intent: Intent, state: SessionState, key: MessageKey) {
    || (intent == RecordSale && state == RECORD_SALE_PRODUCT && key == StartSale)
    || (intent == CheckStock && state == CHECK_STOCK_PRODUCT && key == StartStockCheck)
    || (intent == AddProduct && state == ADD_PRODUCT_NAME && key == StartAddProduct)
  }

  /** Each of three intents starts its own flow and stores nothing but the session. */
  lemma IntentsStartTheirFlow(s: Session, db: DbState, text: string, env: Env)
    requires s.state == IDLE && !IsOverride(text) && env.intent in {RecordSale, CheckStock, AddProduct}
    ensures var service := Serve(s, db, text, env);
            && service.db == db && service.tasks == [] && (service.session.Some? <==> Ends(env))
            && service.reply.Done?
            && (service.session.Some? ==>
                  var after := service.session.value;
                  && StartsWithQuestion(env.intent, after.state, service.reply.key)
                  && MovedTo(s, after, after.state, env.now))
  {
    hide IsOverride, HandleReport;
  }

  /** The fourth one asks for the daily report of the merchant's own shop, for the merchant's own number, once,
      and leads back to where it started; a broker that fails keeps the message from being saved. */
  lemma ReportIsRequested(s: Session, v: Visit)
    requires s.state == IDLE && !IsOverride(v.text) && v.env.intent == GenerateReport
    requires ShopLookup !in v.env.faults
    ensures var r := Visited(s, v);
            var known := s.context.shopId.Some?;
            var shop := if known then s.context.shopId.value else ShopOf(s.phone, v);
            && r.db == (if known then v.db else WithShopOf(s.phone, v))
            && (ReportEnqueue in v.env.faults ==> r.reply == Escaped(Infrastructure) && r.tasks == [])
            && (ReportEnqueue !in v.env.faults ==>
                  r.reply == Done(ReportGenerating) && r.tasks == [DailyReport(s.phone, shop)])
            && (r.session.Some? <==> ReportEnqueue !in v.env.faults && Ends(v.env))
            && (r.session.Some? ==>
                  var after := r.session.value;
                  && after.phone == s.phone && after.state == IDLE
                  && after.context == s.context.(
                       shopId := Some(shop), flowStartedAt := Some(v.env.now), lastActivity := Some(v.env.now),
                       history := s.context.history + [IDLE, REPORT_PENDING], errorCount := 0))
  {
    hide IsOverride, NoSale;
    if s.phone in v.db.shops {
      KnownShopStays(s.phone, v);
    }
    assert s.context.history + [IDLE] + [REPORT_PENDING] == s.context.history + [IDLE, REPORT_PENDING];
  }
}
