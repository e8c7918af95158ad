/** Choosing a product by its number: what the merchant is shown, and what typing a number does
    (app/services/localization.py, app/fsm/primitives.py, app/fsm/flows/analytics.py). */
module Disambiguation {
  import opened Text
  import opened Inputs
  import opened Resolver
  import opened Ledger
  import opened Analytics
  import opened Conversation
  import opened SessionInvariant

  /** How a price is written in the list. */
  type PriceText = int -> string

  /** One line of the PRODUCT_CHOICES message. */
  function ChoiceLine(index: nat, m: ScoredProductMatch, priceText: PriceText): string {
    PrintNat(index) + "." + (" " + m.name + " \U{2014} " + priceText(m.price))
  }

  /** The lines of `enumerate(candidates, start=1)`. */
  function ChoiceLines(candidates: seq<ScoredProductMatch>, priceText: PriceText): (lines: seq<string>)
    ensures |lines| == |candidates|
  {
    seq(|candidates|, i requires 0 <= i < |candidates| => ChoiceLine(i + 1, candidates[i], priceText))
  }

  /** What stands before the first point of a line. */
  function NumberOf(line: string): string {
    line[..IndexOf(line, '.')]
  }

  lemma NumberIsPrinted(index: nat, m: ScoredProductMatch, priceText: PriceText)
    ensures NumberOf(ChoiceLine(index, m, priceText)) == PrintNat(index)
  {
    var line, number := ChoiceLine(index, m, priceText), PrintNat(index);
    PrintedNatReads(index);
    assert line[|number|] == '.';
    assert forall i :: 0 <= i < |number| ==> line[i] == number[i];
    assert IndexOf(line, '.') == |number|;
  }

  /** `int()` reads the number: it has no more digits than Python converts. */
  predicate Readable(n: nat) {
    |PrintNat(n)| <= MAX_INT_DIGITS
  }

  /** Typing the number printed before a candidate selects exactly that candidate. */
  lemma TypedNumberSelectsItsLine(c: Context, k: nat, priceText: PriceText)
    requires k < |c.candidates| && Readable(k + 1)
    ensures ResolveChoice(c, NumberOf(ChoiceLines(c.candidates, priceText)[k])) == Chosen(c.candidates[k])
  {
    NumberIsPrinted(k + 1, c.candidates[k], priceText);
    PrintedNumberParses(k + 1);
  }

  /** And nothing else selects it: a text chooses a product exactly when it reads as the number printed
      before one of the candidates, and then it chooses that one. */
  lemma OnlyPrintedNumbersSelect(c: Context, text: string, priceText: PriceText)
    requires forall n: nat :: 1 <= n <= |c.candidates| ==> Readable(n)
    ensures var lines := ChoiceLines(c.candidates, priceText);
            && (ResolveChoice(c, text).Chosen?
                <==> exists k :: 0 <= k < |lines| && ParseInt(text) == ParseInt(NumberOf(lines[k])))
            && (forall k :: 0 <= k < |lines| && ParseInt(text) == ParseInt(NumberOf(lines[k])) ==>
                  ResolveChoice(c, text) == Chosen(c.candidates[k]))
            && (!ResolveChoice(c, text).Chosen? ==>
                  ResolveChoice(c, text) == NotChosen(if lines == [] then SessionContextLost else InvalidChoice))
  {
    hide ParseInt, NumberOf;
    var lines := ChoiceLines(c.candidates, priceText);
    forall k | 0 <= k < |lines| ensures ParseInt(NumberOf(lines[k])) == Some(k + 1) {
      assert Readable(k + 1);
      NumberIsPrinted(k + 1, c.candidates[k], priceText);
      PrintedNumberParses(k + 1);
    }
    if ResolveChoice(c, text).Chosen? {
      assert ParseInt(text) == ParseInt(NumberOf(lines[ParseInt(text).value - 1]));
    }
  }

  lemma ShortListsAreReadable(n: nat)
    requires 1 <= n <= 9
    ensures Readable(n)
  {
  }

  lemma NumbersOverrideNothing(n: nat)
    ensures !IsOverride(PrintNat(n))
  {
    var t := PrintNat(n);
    PrintedNatReads(n);
    StripTight(t);
    assert IsDigit(ToLower(Strip(t))[0]);
  }

  /** A parked call, resumed with a chosen product: it is executed, and it neither fails the schema nor
      comes back ambiguous. */
  lemma ParkedCallRuns(pending: ToolCall, choice: ScoredProductMatch, shop: Uuid, around: Surroundings, idText: string)
    requires pending.tool in DEFAULT_TOOLS && LooksUpProduct(pending.tool)
    requires Validate(pending.tool, pending.args).Valid? && choice.id != NIL
    ensures var call := Resumed(pending, choice, idText);
            var result := Execute(DEFAULT_TOOLS, call, shop, around).result;
            var key := AnalyticsKey(ResumedOutcome(call, result));
            && key != ProductChoices && key != AnalyticsInvalidProposal
            && (around.fault == NoFault && InShop(around.db.products, shop, choice.id) ==>
                  && key == AnalyticsAnswer && result.Success?
                  && TrueOfProduct(pending.tool, result.data, around.db, shop, choice.id)
                  && OrElse(result.validated, call.args) == Dump(call.tool, call.args))
            && (around.fault == NoFault && !InShop(around.db.products, shop, choice.id) ==>
                  key == ProductNotFound && result.Failure?)
            && (around.fault == RaisesInfrastructure ==> key == AnalyticsInfrastructureError && result.Failure?)
            && (around.fault == RaisesUnexpected ==> key == AnalyticsDomainError && result.Failure?)
  {
    hide Execute, Dump, Validate, TrueOfProduct;
    var call := Resumed(pending, choice, idText);
    ResumedCallRuns(DEFAULT_TOOLS, pending, choice, idText, shop, around);
    ResumedCallValidates(pending, choice, idText);
    ReportedArgumentsAreValidated(call.tool, call.args);
  }

  /** The pending call and the choices of a well-formed session. */
  lemma PendingIsSound(s: Session, u: Universe, maxErrors: int, k: nat)
    requires WellFormed(s, u, maxErrors) && s.state == ANALYTICS_PRODUCT_SELECTION && k < |s.context.candidates|
    ensures s.context.pending.Some? && |s.context.candidates| <= 9 && s.context.candidates[k].id != NIL
    ensures NoProduct(s.context)
    ensures var call := s.context.pending.value.call;
            call.tool in DEFAULT_TOOLS && LooksUpProduct(call.tool) && Validate(call.tool, call.args).Valid?
  {
  }

  /** What the merchant hears when the product is gone, the database fails, or the handler does. */
  function FailureKey(fault: Fault): MessageKey {
    match fault
    case NoFault => ProductNotFound
    case RaisesInfrastructure => AnalyticsInfrastructureError
    case RaisesUnexpected => AnalyticsDomainError
  }

  /** What the selection handler makes of that choice. */
  lemma SelectionResumes(s: Session, w: World, env: Env, shop: Uuid, choice: ScoredProductMatch)
    requires s.context.pending.Some? && choice.id != NIL && NoProduct(s.context)
    requires GetShopId(w, s.phone, env).Some? ==>
      GetShopId(w, s.phone, env).value.1 == shop
      && GetShopId(w, s.phone, env).value.0.working.products == w.working.products
    requires var call := s.context.pending.value.call;
             call.tool in DEFAULT_TOOLS && LooksUpProduct(call.tool) && Validate(call.tool, call.args).Valid?
    ensures var h := ProductSelected(s, w, Chosen(choice), env);
            var call := Resumed(s.context.pending.value.call, choice, env.choiceIdText);
            && (h.reply.Escaped? <==> ShopLookup in env.faults)
            && (!h.reply.Escaped? ==>
                  && h.reply.Done? && h.reply != Done(ProductChoices) && h.reply != Done(AnalyticsInvalidProposal)
                  && h.session.state == IDLE && EmptyDraft(h.session.context))
            && (!h.reply.Escaped? && env.toolFault(0) == NoFault && InShop(w.working.products, shop, choice.id) ==>
                  && h.reply == Done(AnalyticsAnswer)
                  && h.session.context.lastCall
                     == Some(SuccessfulCall(call.(args := Dump(call.tool, call.args)), env.now)))
            && (!h.reply.Escaped? && (env.toolFault(0) != NoFault || !InShop(w.working.products, shop, choice.id)) ==>
                  && h.reply == Done(FailureKey(env.toolFault(0)))
                  && h.session.context.lastCall == s.context.lastCall)
  {
    hide Execute, Validate, Dump, ResumedOutcome, AnalyticsKey, OrElse, LooksUpProduct;
    if GetShopId(w, s.phone, env).Some? {
      var w1 := GetShopId(w, s.phone, env).value.0;
      ParkedCallRuns(s.context.pending.value.call, choice, shop, AroundTool(w1, env, 0), env.choiceIdText);
    }
  }

  /** From a well-formed session that waits for a product choice, typing the number of any line ends
      the disambiguation: back in IDLE, with nothing parked and no candidates. If the product is still
      in the shop and the database answers, the answer is about that product; if not, the merchant hears
      why, and the call remembered before is kept. */
  lemma DisambiguationEnds(
    s: Session, w: World, env: Env, u: Universe, k: nat, priceText: PriceText)
    requires WellFormed(s, u, env.maxErrors) && EnvOk(s.phone, w, env, u)
    requires DbOk(w.committed, u) && DbOk(w.working, u)
    requires s.state == ANALYTICS_PRODUCT_SELECTION && k < |s.context.candidates|
    ensures var text := NumberOf(ChoiceLines(s.context.candidates, priceText)[k]);
            var h := Process(s, w, text, env);
            var choice := s.context.candidates[k];
            && (h.reply.Escaped? <==> ShopLookup in env.faults)
            && (!h.reply.Escaped? ==>
                  && h.reply.Done? && h.reply != Done(ProductChoices) && h.reply != Done(AnalyticsInvalidProposal)
                  && h.session.state == IDLE && EmptyDraft(h.session.context) && h.session.context.errorCount == 0)
            && (!h.reply.Escaped? && env.toolFault(0) == NoFault
                  && InShop(w.working.products, u.shopOf(s.phone), choice.id) ==>
                  && s.context.pending.Some?
                  && var call := Resumed(s.context.pending.value.call, choice, env.choiceIdText);
                  && h.reply == Done(AnalyticsAnswer)
                  && h.session.context.lastCall
                     == Some(SuccessfulCall(call.(args := Dump(call.tool, call.args)), env.now)))
            && (!h.reply.Escaped?
                  && (env.toolFault(0) != NoFault || !InShop(w.working.products, u.shopOf(s.phone), choice.id)) ==>
                  && h.reply == Done(FailureKey(env.toolFault(0)))
                  && h.session.context.lastCall == s.context.lastCall)
  {
    hide Execute, Validate, PossibleRows, NumberOf, Dump, ChoiceLines, ProductSelected, WellFormed, GetShopId;
    hide FailureKey;
    hide EmptyDraft, LooksUpProduct, ResolveChoice, IsOverride;
    var text := NumberOf(ChoiceLines(s.context.candidates, priceText)[k]);
    var choice := s.context.candidates[k];
    PendingIsSound(s, u, env.maxErrors, k);
    ShortListsAreReadable(k + 1);
    TypedNumberSelectsItsLine(s.context, k, priceText);
    TextIsNumber(s, k, priceText);
    NumbersOverrideNothing(k + 1);
    ShopIsOwn(w, s.phone, env, u);
    SelectionResumes(s, w, env, u.shopOf(s.phone), choice);
    assert Handle(s, w, text, env) == ProductSelected(s, w, Chosen(choice), env);
    SettledDraft(Handle(s, w, text, env), env);
  }

  lemma SettledDraft(h: Handled, env: Env)
    ensures h.reply.Done? && EmptyDraft(h.session.context) ==> EmptyDraft(Settle(h, env).session.context)
  {
  }

  lemma TextIsNumber(s: Session, k: nat, priceText: PriceText)
    requires k < |s.context.candidates|
    ensures NumberOf(ChoiceLines(s.context.candidates, priceText)[k]) == PrintNat(k + 1)
  {
    NumberIsPrinted(k + 1, s.context.candidates[k], priceText);
  }
}
