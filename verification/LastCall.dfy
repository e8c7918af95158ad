/** The remembered analytics call (`last_analytics_call`): which messages set it, which clear it, and
    that it always is a call that really ran. */
module LastCall {
  import opened Text
  import opened Inputs
  import opened Resolver
  import opened Ledger
  import opened Analytics
  import opened ToolLaws
  import opened Conversation
  import opened SessionInvariant
  import opened Worker
  import opened SessionRuns

  /** Messages that end in a context reset. */
  predicate ResetsContext(reply: Reply) {
    reply.Done? && (reply.key.StockRemaining? || reply.key in
      {FlowCancelled, TooManyInvalid, ProductAdded, ProductCancelled, SaleRecorded, SaleCancelled})
  }

  predicate AnswersQuestion(reply: Reply) {
    reply == Done(AnalyticsAnswer) || reply == Done(AnalyticsEmpty)
  }

  /** The database session that the tools of a message read. */
  function ToolWorld(s: Session, w: World, env: Env): World {
    var shop := GetShopId(w, s.phone, env);
    if shop.Some? then shop.value.0 else w
  }

  /** The orchestrator's run over a question. */
  function QueryRun(s: Session, w: World, text: string, env: Env, shop: Uuid): Orchestration {
    var c := s.context.(shopId := Some(shop));
    var prior := if HasFreshContext(c, env) then Some(c.lastCall.value.call) else None;
    Orchestrated(env.replies, ExecutorIn(ToolWorld(s, w, env), shop, env), DEFAULT_TOOLS, text, prior)
  }

  /** `call` is the tool and the validated arguments of the last call that the orchestrator executed, in
      the turn of its last provider call: the sole call of that response, and it succeeded. */
  ghost predicate RanInQuery(call: ToolCall, s: Session, w: World, text: string, env: Env, shop: Uuid) {
    var run := QueryRun(s, w, text, env, shop);
    && run.executed != [] && run.asked != []
    && var i, proposed := |run.asked| - 1, run.executed[|run.executed| - 1];
    && env.replies(i) == Calls([proposed]) && proposed.tool == call.tool
    && var result := Execute(DEFAULT_TOOLS, proposed, shop, AroundTool(ToolWorld(s, w, env), env, i)).result;
    && result.Success? && result.validated == call.args
  }

  /** `call` is the parked call, resumed with the product that the text chooses, and it succeeded. */
  ghost predicate RanInSelection(call: ToolCall, s: Session, w: World, text: string, env: Env, shop: Uuid) {
    var choice := ResolveChoice(s.context, text);
    && choice.Chosen? && s.context.pending.Some?
    && var resumed := Resumed(s.context.pending.value.call, choice.product, env.choiceIdText);
    && resumed.tool == call.tool
    && var result := Execute(DEFAULT_TOOLS, resumed, shop, AroundTool(ToolWorld(s, w, env), env, 0)).result;
    && result.Success? && result.validated == call.args
  }

  /** The tool and the validated arguments of the execution, in this message, that answered it. */
  ghost predicate RanInMessage(call: ToolCall, s: Session, w: World, text: string, env: Env, shop: Uuid) {
    if s.state == ANALYTICS_PRODUCT_SELECTION then RanInSelection(call, s, w, text, env, shop)
    else RanInQuery(call, s, w, text, env, shop)
  }

  /** What a message does to the remembered call: an answer replaces it by the call that ran, a context
      reset clears it, and everything else, a failed analytics query included, leaves it as it was. */
  ghost predicate LastCallFollows(s: Session, h: Handled, w: World, text: string, env: Env, shop: Uuid) {
    !h.reply.Escaped? ==>
      var before, after := s.context.lastCall, h.session.context.lastCall;
      if AnswersQuestion(h.reply) then
        after.Some? && after.value.at == env.now && RanInMessage(after.value.call, s, w, text, env, shop)
      else if ResetsContext(h.reply) then after.None?
      else after == before
  }

  lemma AddHandlersKeepCall(s: Session, w: World, text: string, env: Env, shop: Uuid)
    requires s.state in {ADD_PRODUCT_NAME, ADD_PRODUCT_PRICE, ADD_PRODUCT_QTY, CONFIRM_ADD_PRODUCT}
    ensures LastCallFollows(s, Handle(s, w, text, env), w, text, env, shop)
  {
    hide RanInMessage, ParseProductName, ParsePrice, ParseQuantity, ParseConfirmation, PersistProduct;
    hide HandleSaleName, HandleSaleSelection, HandleSaleQty, HandleConfirmSale, HandleStockName;
    hide HandleStockSelection, HandleProductSelection, HandleIdle, NoSale;
  }

  lemma SaleHandlersKeepCall(s: Session, w: World, text: string, env: Env, shop: Uuid)
    requires s.state in {RECORD_SALE_PRODUCT, RECORD_SALE_PRODUCT_SELECTION, RECORD_SALE_QTY, SessionState.CONFIRM_SALE}
    ensures LastCallFollows(s, Handle(s, w, text, env), w, text, env, shop)
  {
    hide RanInMessage, ParseQuantity, ParseConfirmation, ParseInt, GetShopId, FindByFuzzyName, RecordedSale, Stocked;
    hide HandleName, HandlePrice, HandleQty, HandleConfirmAdd, HandleStockName, HandleStockSelection;
    hide HandleProductSelection, HandleIdle, NoSale;
  }

  lemma StockHandlersKeepCall(s: Session, w: World, text: string, env: Env, shop: Uuid)
    requires s.state in {CHECK_STOCK_PRODUCT, CHECK_STOCK_PRODUCT_SELECTION}
    ensures LastCallFollows(s, Handle(s, w, text, env), w, text, env, shop)
  {
    hide RanInMessage, ParseProductName, ParseInt, GetShopId, FindByFuzzyName;
  }

  /** The handlers that ask no analytics question. */
  lemma OtherHandlersKeepCall(s: Session, w: World, text: string, env: Env, shop: Uuid)
    requires s.state !in {IDLE, START_ADD_PRODUCT, REPORT_PENDING, ANALYTICS_PRODUCT_SELECTION}
    ensures LastCallFollows(s, Handle(s, w, text, env), w, text, env, shop)
  {
    hide Handle, LastCallFollows;
    match s.state {
      case ADD_PRODUCT_NAME | ADD_PRODUCT_PRICE | ADD_PRODUCT_QTY | CONFIRM_ADD_PRODUCT =>
        AddHandlersKeepCall(s, w, text, env, shop);
      case RECORD_SALE_PRODUCT | RECORD_SALE_PRODUCT_SELECTION | RECORD_SALE_QTY | CONFIRM_SALE =>
        SaleHandlersKeepCall(s, w, text, env, shop);
      case CHECK_STOCK_PRODUCT | CHECK_STOCK_PRODUCT_SELECTION =>
        StockHandlersKeepCall(s, w, text, env, shop);
      case _ =>
    }
  }

  lemma SuccessReportsValidated(call: ToolCall, shop: Uuid, around: Surroundings)
    requires Execute(DEFAULT_TOOLS, call, shop, around).result.Success?
    ensures var result := Execute(DEFAULT_TOOLS, call, shop, around).result;
            call.tool in DEFAULT_TOOLS && OrElse(result.validated, call.args) == result.validated
  {
    hide RunHandler, Dump;
    ReportedArgumentsAreValidated(call.tool, call.args);
  }

  /** A run that answers was answered by its last execution, in its last turn. */
  lemma AnswerIsLastExecution(
    replies: nat -> ProviderReply, execute: Executor, active: set<ToolName>, text: string, prior: Option<ToolCall>)
    ensures var run := Orchestrated(replies, execute, active, text, prior);
            run.outcome.Answered? || run.outcome.AnsweredEmpty? ==>
              && run.executed != [] && run.asked != []
              && var i, proposed := |run.asked| - 1, run.executed[|run.executed| - 1];
              && replies(i) == Calls([proposed])
              && execute(i, proposed).Success?
              && run.outcome.call == ToolCall(proposed.tool, OrElse(execute(i, proposed).validated, proposed.args))
              && run.outcome.data == execute(i, proposed).data
              && (run.outcome.AnsweredEmpty? <==> IsResultEmpty(proposed.tool, run.outcome.data))
  {
    hide IsResultEmpty, OrElse;
    var run := Orchestrated(replies, execute, active, text, prior);
    if run.outcome.Answered? || run.outcome.AnsweredEmpty? {
      var i: nat := |run.asked| - 1;
      assert i <= 1 && replies(i).calls == [replies(i).calls[0]];
      assert ExecutedBy(replies(i), active) == replies(i).calls;
    }
  }

  /** An answered question reports a call that ran in it. */
  lemma AnswersReportRuns(s: Session, w: World, text: string, env: Env, shop: Uuid)
    ensures var outcome := QueryRun(s, w, text, env, shop).outcome;
            outcome.Answered? || outcome.AnsweredEmpty? ==> RanInQuery(outcome.call, s, w, text, env, shop)
  {
    hide Execute, OrElse, Orchestrated;
    var run := QueryRun(s, w, text, env, shop);
    var c := s.context.(shopId := Some(shop));
    var prior := if HasFreshContext(c, env) then Some(c.lastCall.value.call) else None;
    AnswerIsLastExecution(env.replies, ExecutorIn(ToolWorld(s, w, env), shop, env), DEFAULT_TOOLS, text, prior);
    if run.outcome.Answered? || run.outcome.AnsweredEmpty? {
      var i: nat, proposed := |run.asked| - 1, run.executed[|run.executed| - 1];
      SuccessReportsValidated(proposed, shop, AroundTool(ToolWorld(s, w, env), env, i));
    }
  }

  /** And what it answers about a product is true: the figures are those that the database of this message
      holds for a product of the merchant's shop, and for just the product whose id the call names. */
  lemma ProductAnswersAreTrue(s: Session, w: World, text: string, env: Env, shop: Uuid)
    ensures var outcome := QueryRun(s, w, text, env, shop).outcome;
            (outcome.Answered? || outcome.AnsweredEmpty?) && LooksUpProduct(outcome.call.tool) ==>
              && outcome.Answered? && Subject(outcome.data).Some?
              && var id := Subject(outcome.data).value;
              && TrueOfProduct(outcome.call.tool, outcome.data, ToolWorld(s, w, env).working, shop, id)
              && forall named :: ById(outcome.call.args, named) ==> named == id
  {
    hide Execute, OrElse, Orchestrated, TrueOfProduct, ById;
    var run := QueryRun(s, w, text, env, shop);
    var c := s.context.(shopId := Some(shop));
    var prior := if HasFreshContext(c, env) then Some(c.lastCall.value.call) else None;
    AnswerIsLastExecution(env.replies, ExecutorIn(ToolWorld(s, w, env), shop, env), DEFAULT_TOOLS, text, prior);
    if run.outcome.Answered? || run.outcome.AnsweredEmpty? {
      var i: nat, proposed := |run.asked| - 1, run.executed[|run.executed| - 1];
      var around := AroundTool(ToolWorld(s, w, env), env, i);
      SuccessReportsValidated(proposed, shop, around);
      if LooksUpProduct(proposed.tool) {
        NamedProductIsSubject(proposed, shop, around);
      }
    }
  }

  /** A look-up that succeeds is about the product that its arguments name by id, if they do. */
  lemma NamedProductIsSubject(call: ToolCall, shop: Uuid, around: Surroundings)
    requires LooksUpProduct(call.tool) && Execute(DEFAULT_TOOLS, call, shop, around).result.Success?
    ensures var r := Execute(DEFAULT_TOOLS, call, shop, around).result;
            && Subject(r.data).Some?
            && TrueOfProduct(call.tool, r.data, around.db, shop, Subject(r.data).value)
            && forall named :: ById(r.validated, named) ==> named == Subject(r.data).value
  {
    hide Dump;
  }

  lemma QueryFollowsCall(s: Session, w: World, text: string, env: Env, u: Universe)
    requires DbOk(w.working, u) && DbOk(w.committed, u) && env.newShopId == u.shopOf(s.phone)
    requires s.state != ANALYTICS_PRODUCT_SELECTION
    ensures LastCallFollows(s, HandleQuery(s, w, text, env), w, text, env, u.shopOf(s.phone))
  {
    hide Orchestrated, RanInQuery, DbOk;
    ShopIsOwn(w, s.phone, env, u);
    AnswersReportRuns(s, w, text, env, u.shopOf(s.phone));
  }

  lemma SelectionFollowsCall(s: Session, w: World, text: string, env: Env, u: Universe)
    requires DbOk(w.working, u) && DbOk(w.committed, u) && env.newShopId == u.shopOf(s.phone)
    requires s.state == ANALYTICS_PRODUCT_SELECTION && s.context.pending.Some?
    ensures var h := ProductSelected(s, w, ResolveChoice(s.context, text), env);
            LastCallFollows(s, h, w, text, env, u.shopOf(s.phone))
  {
    hide Execute, IsResultEmpty, OrElse, ResolveChoice;
    ShopIsOwn(w, s.phone, env, u);
    var choice := ResolveChoice(s.context, text);
    if choice.Chosen? && GetShopId(w, s.phone, env).Some? {
      var (w1, shopId) := GetShopId(w, s.phone, env).value;
      var call := Resumed(s.context.pending.value.call, choice.product, env.choiceIdText);
      var around := AroundTool(w1, env, 0);
      if Execute(DEFAULT_TOOLS, call, shopId, around).result.Success? {
        SuccessReportsValidated(call, shopId, around);
      }
    }
  }

  lemma IdleFollowsCall(s: Session, w: World, text: string, env: Env, u: Universe)
    requires DbOk(w.working, u) && DbOk(w.committed, u) && env.newShopId == u.shopOf(s.phone)
    requires s.state != ANALYTICS_PRODUCT_SELECTION
    ensures LastCallFollows(s, HandleIdle(s, w, text, env), w, text, env, u.shopOf(s.phone))
  {
    hide HandleQuery, RanInMessage, CanRoute, GetShopId;
    QueryFollowsCall(s, w, text, env, u);
  }

  /** From every well-formed session, every message treats the remembered call this way. */
  lemma MessageFollowsCall(s: Session, w: World, text: string, env: Env, u: Universe)
    requires WellFormed(s, u, env.maxErrors) && EnvOk(s.phone, w, env, u)
    requires DbOk(w.working, u) && DbOk(w.committed, u)
    ensures LastCallFollows(s, Process(s, w, text, env), w, text, env, u.shopOf(s.phone))
  {
    hide Handle, RanInMessage, PossibleRows;
    if !IsOverride(text) {
      HandleFollowsCall(s, w, text, env, u);
    }
  }

  lemma HandleFollowsCall(s: Session, w: World, text: string, env: Env, u: Universe)
    requires WellFormed(s, u, env.maxErrors) && EnvOk(s.phone, w, env, u)
    requires DbOk(w.working, u) && DbOk(w.committed, u)
    ensures LastCallFollows(s, Handle(s, w, text, env), w, text, env, u.shopOf(s.phone))
  {
    hide HandleIdle, ProductSelected, LastCallFollows, PossibleRows;
    if s.state == IDLE {
      IdleFollowsCall(s, w, text, env, u);
    } else if s.state == ANALYTICS_PRODUCT_SELECTION {
      SelectionFollowsCall(s, w, text, env, u);
    } else {
      OtherHandlersKeepCall(s, w, text, env, u.shopOf(s.phone));
    }
  }

  // --------------------------------------------------------------------- runs

  function Remembered(raw: Raw): Option<SuccessfulCall> {
    if raw.Stored? then raw.session.context.lastCall else None
  }

  /** Turn `t`, from this standing, was answered by the execution that `c` records. */
  ghost predicate AnsweredBy(c: SuccessfulCall, st: Standing, t: Happening, g: Setting) {
    && t.Message? && AnswersQuestion(Served(g.phone, st, t).reply) && c.at == t.env.now
    && RanInMessage(c.call, Opened(g.phone, Decoded(st.raw)), World(st.db, st.db, []), t.text, t.env,
                    g.universe.shopOf(g.phone))
  }

  /** What one turn does to the stored call. */
  lemma TurnFollowsCall(st: Standing, t: Happening, g: Setting)
    requires Sound(st, g) && Lawful(st, t, g)
    ensures var before, after := Remembered(st.raw), Remembered(After(g.phone, st, t).raw);
            after == before || after.None? || AnsweredBy(after.value, st, t, g)
  {
    hide Process, WellFormed, DbOk, EnvOk, RanInMessage, Path;
    if t.Message? {
      OpenedIsWellFormed(st, g);
      TurnKeepsSound(st, t, g);
      MessageFollowsCall(Opened(g.phone, Decoded(st.raw)), World(st.db, st.db, []), t.text, t.env, g.universe);
    }
  }

  predicate RemembersAt(db: DbState, turns: seq<Happening>, m: nat, g: Setting, c: Option<SuccessfulCall>)
    requires m <= |turns|
  {
    Remembered(SessionRuns.Run(g.phone, db, turns[..m]).raw) == c
  }

  lemma LawfulTurn(db: DbState, turns: seq<Happening>, i: nat, g: Setting)
    requires i < |turns| && LawfulRun(db, turns, g)
    ensures Lawful(SessionRuns.Run(g.phone, db, turns[..i]), turns[i], g)
  {
  }

  /** In every run, whatever call is remembered is the tool and the validated arguments of the execution
      that answered an earlier message of the run, for the shop of this phone; and no message since then
      has answered anything else. */
  lemma {:induction false} RememberedCallReallyRan(db: DbState, turns: seq<Happening>, n: nat, g: Setting)
    returns (k: nat)
    requires n <= |turns| && LawfulRun(db, turns, g)
    requires Remembered(SessionRuns.Run(g.phone, db, turns[..n]).raw).Some?
    ensures k < n
    ensures var c := Remembered(SessionRuns.Run(g.phone, db, turns[..n]).raw);
            && AnsweredBy(c.value, SessionRuns.Run(g.phone, db, turns[..k]), turns[k], g)
            && forall m :: k < m <= n ==> RemembersAt(db, turns, m, g, c)
  {
    hide After, Lawful, Sound, AnsweredBy, LawfulRun;
    if n == 0 {
      assert false;
    } else {
      LawfulTurn(db, turns, n - 1, g);
      var st := SessionRuns.Run(g.phone, db, turns[..n - 1]);
      RunIsSound(db, turns, n - 1, g);
      RunStep(g.phone, db, turns, n - 1);
      TurnFollowsCall(st, turns[n - 1], g);
      if Remembered(After(g.phone, st, turns[n - 1]).raw) == Remembered(st.raw) {
        k := RememberedCallReallyRan(db, turns, n - 1, g);
      } else {
        k := n - 1;
      }
    }
  }
}
