/** Free questions to the analytics model: which messages reach it, what it is told of the call before, and
    what the merchant hears (app/fsm/routing_policy.py, app/fsm/flows/analytics.py). */
module Questions {
  import opened Text
  import opened Inputs
  import opened InputLaws
  import opened Resolver
  import opened Ledger
  import opened Analytics
  import opened ToolLaws
  import opened Conversation
  import opened SessionInvariant
  import opened Worker
  import opened SessionRuns
  import opened LastCall
  import opened Disambiguation
  import opened Journeys

  // ------------------------------------------------------------------- routing

  /** A call is remembered, and it is no older than the time-to-live, to the very second. */
  predicate RemembersRecent(c: Context, now: int, ttl: int) {
    c.lastCall.Some? && now <= c.lastCall.value.at + ttl
  }

  predicate IsBareNumber(text: string) {
    text != "" && AllDigits(text)
  }

  /** Text that starts no flow reaches the model exactly when analytics is configured and the text, without the
      space around it, is at most 500 characters long, and either follows up on a recent call or has two
      characters or more and is no bare number. Otherwise it is an unknown intent, and changes nothing. */
  lemma QuestionsReachTheModelIff(s: Session, w: World, before: string, question: string, after: string, env: Env)
    requires AllSpace(before) && AllSpace(after) && Tight(question) && env.intent == UnknownText
    ensures var h := HandleIdle(s, w, before + question + after, env);
            && (!h.reply.Invalid? <==>
                  && env.analyticsEnabled && env.hasProviderKey && |question| <= 500
                  && (RemembersRecent(s.context, env.now, env.followUpTtl)
                      || (|question| >= 2 && !IsBareNumber(question))))
            && (h.reply.Invalid? ==> h == Handled(s, w, Invalid(UnknownIntent, None)))
  {
    hide HandleQuery, Strip;
    StripPadded(before, question, after);
  }

  // ------------------------------------------------------------- the call before

  /** The first request holds the remembered call exactly when that is recent, and then the question; a second
      request repeats both and adds what was wrong with the first answer. */
  lemma PriorCallIsSentIff(s: Session, w: World, text: string, env: Env, shop: Uuid)
    ensures var asked := QueryRun(s, w, text, env, shop).asked;
            && 1 <= |asked| <= 2
            && asked[0] == (if RemembersRecent(s.context, env.now, env.followUpTtl)
                            then [PriorCall(s.context.lastCall.value.call), Question(text)] else [Question(text)])
            && (|asked| == 2 ==> asked[0] <= asked[1] && |asked[1]| == |asked[0]| + 2)
  {
    hide ExecutorIn, TakeTurn, ToolWorld;
    var c := s.context.(shopId := Some(shop));
    var prior := if HasFreshContext(c, env) then Some(c.lastCall.value.call) else None;
    SendsOpening(env.replies, ExecutorIn(ToolWorld(s, w, env), shop, env), text, prior);
  }

  lemma SendsOpening(replies: nat -> ProviderReply, execute: Executor, text: string, prior: Option<ToolCall>)
    ensures var asked := Orchestrated(replies, execute, DEFAULT_TOOLS, text, prior).asked;
            && 1 <= |asked| <= 2
            && asked[0] == (if prior.Some? then [PriorCall(prior.value), Question(text)] else [Question(text)])
            && (|asked| == 2 ==> asked[0] <= asked[1] && |asked[1]| == |asked[0]| + 2)
  {
    hide TakeTurn;
    OrchestrationIsBounded(replies, execute, DEFAULT_TOOLS, text, prior);
  }

  /** The prior call that a question of a run sends along, if any. */
  function SentAlong(st: Standing, t: Happening, g: Setting): Option<ToolCall>
    requires t.Message?
  {
    var s := Opened(g.phone, Decoded(st.raw));
    var asked := QueryRun(s, World(st.db, st.db, []), t.text, t.env, g.universe.shopOf(g.phone)).asked;
    if asked != [] && asked[0] != [] && asked[0][0].PriorCall? then Some(asked[0][0].call) else None
  }

  /** In every run, what a question tells the model about an earlier call is the call that answered an earlier
      message of the run, at most the time-to-live before; and no message in between has answered anything
      else. A remembered call that is older is not told. */
  lemma PriorCallIsRecentAnswer(db: DbState, turns: seq<Happening>, n: nat, g: Setting) returns (k: nat)
    requires n < |turns| && LawfulRun(db, turns, g) && turns[n].Message?
    requires SentAlong(SessionRuns.Run(g.phone, db, turns[..n]), turns[n], g).Some?
    ensures k < n && turns[k].Message?
    ensures turns[n].env.now <= turns[k].env.now + turns[n].env.followUpTtl
    ensures var call := SentAlong(SessionRuns.Run(g.phone, db, turns[..n]), turns[n], g).value;
            var c := SuccessfulCall(call, turns[k].env.now);
            && AnsweredBy(c, SessionRuns.Run(g.phone, db, turns[..k]), turns[k], g)
            && forall m :: k < m <= n ==> RemembersAt(db, turns, m, g, Some(c))
  {
    hide QueryRun, LawfulRun, RanInMessage, After, Served;
    var st := SessionRuns.Run(g.phone, db, turns[..n]);
    var s := Opened(g.phone, Decoded(st.raw));
    PriorCallIsSentIff(s, World(st.db, st.db, []), turns[n].text, turns[n].env, g.universe.shopOf(g.phone));
    k := RememberedCallReallyRan(db, turns, n, g);
  }

  // ------------------------------------------------------------------- the reply

  /** What the merchant hears, and what the session keeps, for each outcome of the question: an answer is
      remembered, a choice is parked with its candidates, and nothing else leaves a trace. */
  lemma QuestionReply(s: Session, w: World, text: string, env: Env, shop: Uuid)
    requires GetShopId(w, s.phone, env).Some? && GetShopId(w, s.phone, env).value.1 == shop
    ensures var h := HandleQuery(s, w, text, env);
            var outcome, c := QueryRun(s, w, text, env, shop).outcome, s.context.(shopId := Some(shop));
            && h.world == ToolWorld(s, w, env) && h.reply.Done? && h.session.phone == s.phone
            && (outcome.Answered? <==> h.reply == Done(AnalyticsAnswer))
            && (outcome.AnsweredEmpty? <==> h.reply == Done(AnalyticsEmpty))
            && (outcome.NeedsSelection? <==> h.reply == Done(ProductChoices))
            && (outcome == ProviderUnavailable <==> h.reply == Done(AnalyticsProviderUnavailable))
            && (outcome == InfrastructureFailure <==> h.reply == Done(AnalyticsInfrastructureError))
            && (outcome.DomainFailure? && outcome.error == ProductNotFoundError <==> h.reply == Done(ProductNotFound))
            && (outcome.DomainFailure? && outcome.error != ProductNotFoundError
                <==> h.reply == Done(AnalyticsDomainError))
            && if outcome.NeedsSelection? then
                 && h.session.state == ANALYTICS_PRODUCT_SELECTION
                 && h.session.context == c.(
                      candidates := outcome.candidates, errorCount := 0, history := h.session.context.history,
                      pending := Some(PendingCall(outcome.pending, outcome.candidates)), lastActivity := Some(env.now))
               else
                 && h.session.state == s.state
                 && if outcome.Answered? || outcome.AnsweredEmpty? then
                      h.session.context == c.(errorCount := 0, lastCall := Some(SuccessfulCall(outcome.call, env.now)))
                    else h.session.context == c
  {
    hide Orchestrated, ExecutorIn, HasFreshContext;
  }

  /** A question about a product that the name does not settle, served without failures. */
  predicate AsksAmbiguously(v: Visit, call: ToolCall, name: string) {
    && Plain(v) && v.env.intent == UnknownText && CanRoute(NEW_CONTEXT, v.text, v.env)
    && v.env.replies(0) == Calls([call]) && v.env.toolFault(0) == NoFault
    && LooksUpProduct(call.tool) && FitsSchema(call.tool, call.args) && ByName(call.args, name)
    && ResolveProduct(name, v.env.toolRows(0), DEFAULTS).Ambiguous?
  }

  lemma AmbiguousExecution(v: Visit, call: ToolCall, name: string, shop: Uuid, around: Surroundings)
    requires AsksAmbiguously(v, call, name) && around.fault == NoFault && around.rows == v.env.toolRows(0)
    ensures Execute(DEFAULT_TOOLS, call, shop, around).result == Failure(ProductAmbiguousError(around.rows))
  {
    hide CanRoute;
    ValidIffSchema(call.tool, call.args);
    HandlerArguments(call.tool, call.args, ProductIdKey);
    HandlerArguments(call.tool, call.args, ProductNameKey);
  }

  lemma RoutedWithoutContext(c: Context, text: string, env: Env)
    requires CanRoute(NEW_CONTEXT, text, env)
    ensures CanRoute(c, text, env)
  {
  }

  lemma AmbiguousOutcome(s: Session, w: World, v: Visit, call: ToolCall, name: string, shop: Uuid)
    requires AsksAmbiguously(v, call, name)
    ensures QueryRun(s, w, v.text, v.env, shop).outcome == NeedsSelection(call, v.env.toolRows(0))
  {
    hide Execute, AsksAmbiguously, Orchestrated;
    var around := AroundTool(ToolWorld(s, w, v.env), v.env, 0);
    AskingCall(v, call, name);
    AmbiguousExecution(v, call, name, shop, around);
    var c := s.context.(shopId := Some(shop));
    var prior := if HasFreshContext(c, v.env) then Some(c.lastCall.value.call) else None;
    var execute := ExecutorIn(ToolWorld(s, w, v.env), shop, v.env);
    OutcomeOfLastTurn(v.env.replies, execute, DEFAULT_TOOLS, v.text, prior);
  }

  lemma AskingCall(v: Visit, call: ToolCall, name: string)
    requires AsksAmbiguously(v, call, name)
    ensures v.env.replies(0) == Calls([call]) && call.tool in DEFAULT_TOOLS && v.env.toolFault(0) == NoFault
  {
    hide CanRoute;
  }

  lemma AmbiguousQuestionParks(s: Session, v: Visit, call: ToolCall, name: string)
    requires s.state == IDLE && AsksAmbiguously(v, call, name)
    ensures var r := Visited(s, v);
            && r.reply == Done(ProductChoices) && r.db == WithShopOf(s.phone, v) && r.session.Some?
            && var after := r.session.value;
            && after.phone == s.phone && after.state == ANALYTICS_PRODUCT_SELECTION
            && after.context.candidates == v.env.toolRows(0)
            && after.context.pending == Some(PendingCall(call, v.env.toolRows(0)))
  {
    hide QueryRun, HandleQuery, CanRoute, IsOverride, FitsSchema, ResolveProduct;
    var w := World(v.db, v.db, []);
    RoutedWithoutContext(s.context, v.text, v.env);
    AmbiguousOutcome(s, w, v, call, name, ShopOf(s.phone, v));
    QuestionReply(s, w, v.text, v.env, ShopOf(s.phone, v));
    if s.phone in v.db.shops {
      KnownShopStays(s.phone, v);
    }
    assert Handle(s, w, v.text, v.env) == HandleQuery(s, w, v.text, v.env);
  }

  lemma ParkedIsWellFormed(s: Session, v: Visit, u: Universe)
    requires WellFormed(s, u, v.env.maxErrors) && DbOk(v.db, u) && EnvOk(s.phone, World(v.db, v.db, []), v.env, u)
    ensures Visited(s, v).session.Some? ==> WellFormed(Visited(s, v).session.value, u, v.env.maxErrors)
  {
    hide WellFormed, DbOk, EnvOk, Process;
    MessageKeepsInvariant(s, World(v.db, v.db, []), v.text, v.env, u);
  }

  /** What the parked call answers about the chosen product. */
  lemma ChosenAnswer(s: Session, w: World, env: Env, u: Universe, k: nat)
    requires WellFormed(s, u, env.maxErrors) && s.state == ANALYTICS_PRODUCT_SELECTION && k < |s.context.candidates|
    requires env.toolFault(0) == NoFault && InShop(w.working.products, u.shopOf(s.phone), s.context.candidates[k].id)
    ensures s.context.pending.Some?
    ensures var call, m := s.context.pending.value.call, s.context.candidates[k];
            var again := Resumed(call, m, env.choiceIdText);
            var answer := Execute(DEFAULT_TOOLS, again, u.shopOf(s.phone), AroundTool(w, env, 0)).result;
            && answer.Success? && answer.validated == Dump(again.tool, again.args)
            && TrueOfProduct(call.tool, answer.data, w.working, u.shopOf(s.phone), m.id)
  {
    hide WellFormed, Execute, Dump, TrueOfProduct;
    PendingIsSound(s, u, env.maxErrors, k);
    var call, m := s.context.pending.value.call, s.context.candidates[k];
    var again, around := Resumed(call, m, env.choiceIdText), AroundTool(w, env, 0);
    ResumedCallRuns(DEFAULT_TOOLS, call, m, env.choiceIdText, u.shopOf(s.phone), around);
    ResumedCallValidates(call, m, env.choiceIdText);
    SuccessIsDump(again, u.shopOf(s.phone), around);
  }

  lemma SuccessIsDump(call: ToolCall, shop: Uuid, around: Surroundings)
    requires Execute(DEFAULT_TOOLS, call, shop, around).result.Success?
    ensures Execute(DEFAULT_TOOLS, call, shop, around).result.validated == Dump(call.tool, call.args)
  {
    hide Dump, RunHandler;
  }

  /** A question whose product several names fit, and the number of one of them: the merchant is answered what
      was asked, about just that product, and the conversation is idle again. */
  lemma AskingAndChoosing(
    s: Session, asked: Visit, chosen: Visit, u: Universe, call: ToolCall, name: string, k: nat, priceText: PriceText)
    requires WellFormed(s, u, asked.env.maxErrors) && s.state == IDLE && AsksAmbiguously(asked, call, name)
    requires DbOk(asked.db, u) && EnvOk(s.phone, World(asked.db, asked.db, []), asked.env, u)
    requires DbOk(chosen.db, u) && EnvOk(s.phone, World(chosen.db, chosen.db, []), chosen.env, u)
    requires chosen.env.maxErrors == asked.env.maxErrors
    requires k < |asked.env.toolRows(0)| && chosen.text == NumberOf(ChoiceLines(asked.env.toolRows(0), priceText)[k])
    requires chosen.env.faults == {} && chosen.env.toolFault(0) == NoFault
    requires InShop(chosen.db.products, u.shopOf(s.phone), asked.env.toolRows(0)[k].id)
    ensures var r1 := Visited(s, asked);
            && r1.reply == Done(ProductChoices) && r1.session.Some?
            && var r2 := Visited(r1.session.value, chosen);
            && r2.reply == Done(AnalyticsAnswer) && r2.session.Some?
            && r2.session.value.state == IDLE && EmptyDraft(r2.session.value.context)
            && var m := asked.env.toolRows(0)[k];
            && var again := Resumed(call, m, chosen.env.choiceIdText);
            && var answer := Execute(DEFAULT_TOOLS, again, u.shopOf(s.phone),
                                     AroundTool(World(chosen.db, chosen.db, []), chosen.env, 0)).result;
            && answer.Success? && TrueOfProduct(call.tool, answer.data, chosen.db, u.shopOf(s.phone), m.id)
            && r2.session.value.context.lastCall
               == Some(SuccessfulCall(again.(args := answer.validated), chosen.env.now))
  {
    hide AsksAmbiguously, EnvOk, DbOk, WellFormed, NumberOf, ChoiceLines, Process, Execute, Dump, Resumed;
    AmbiguousQuestionParks(s, asked, call, name);
    var s1 := Visited(s, asked).session.value;
    ParkedIsWellFormed(s, asked, u);
    var w := World(chosen.db, chosen.db, []);
    DisambiguationEnds(s1, w, chosen.env, u, k, priceText);
    ChosenAnswer(s1, w, chosen.env, u, k);
  }
}
