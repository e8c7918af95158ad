/** Runs, from an empty session store, in which the promises that the code does not keep are broken. */
module Witnesses {
  import opened Text
  import opened Inputs
  import opened Resolver
  import opened Ledger
  import opened Analytics
  import opened Conversation
  import opened SessionInvariant
  import opened Worker
  import opened Protocol
  import opened Journeys
  import opened SaleAlerts
  import opened Races

  const SOAP := Product(1, "soap", 100)
  const SOAP_ROW := ScoredProductMatch(7, 1, "soap", 100, 1.0)

  /** One shop with one product. */
  function Shop(stock: int, threshold: int): DbState {
    DbState(map["0700" := 1], map[7 := SOAP], map[7 := Inventory(stock, threshold)], [])
  }

  const OWNER := Setting("0700", Universe(_ => 1, _ => 1), 3)

  /** An environment without a model provider. */
  function Surrounding(intent: Intent, rows: seq<ScoredProductMatch>, faults: set<Point>): Env {
    Env(0, 3, intent, false, false, 0, 1, 8, rows, faults,
        _ => FormatError, _ => [], _ => NoFault, _ => Items(0, 0), "")
  }

  lemma RowsArePossible(rows: seq<ScoredProductMatch>, db: DbState, limit: nat)
    requires db.products == map[7 := SOAP] && limit >= 1 && (rows == [] || rows == [SOAP_ROW])
    ensures PossibleRows(rows, db.products, 1, limit)
  {
    var score := if rows == [] then 0.0 else 1.0;
    var sim: Similarity := name => if name == "soap" then score else 0.0;
    var eligible := Eligible(db.products, 1, sim, DEFAULTS.listed);
    assert IsSimilarity(sim);
    assert rows != [] ==> Row(7, SOAP, sim) == SOAP_ROW;
    assert eligible == (set r | r in rows) by {
      assert forall r :: r in eligible ==> r == Row(7, SOAP, sim);
      assert rows != [] ==> 7 in db.products && Row(7, db.products[7], sim) in eligible;
    }
    assert Orders(rows, eligible) && rows == Limit(rows, limit);
  }

  lemma SurroundingIsLawful(db: DbState, intent: Intent, rows: seq<ScoredProductMatch>, faults: set<Point>)
    requires db.products == map[7 := SOAP] && (rows == [] || rows == [SOAP_ROW])
    ensures EnvOk(OWNER.phone, World(db, db, []), Surrounding(intent, rows, faults), OWNER.universe)
  {
    hide PossibleRows;
    RowsArePossible(rows, db, CHAT_LIMIT);
    RowsArePossible([], db, TOOL_LIMIT);
  }

  // ------------------------------------------------------------- running a message

  lemma RunMore(db: DbState, steps: seq<Step>, step: Step)
    requires Permitted(Protocol.Run(db, steps, OWNER), step, OWNER)
    ensures Protocol.Run(db, steps + [step], OWNER) == Next(Protocol.Run(db, steps, OWNER), step, OWNER)
  {
    assert (steps + [step])[..|steps + [step]| - 1] == steps;
  }

  /** A new worker reads the stored session. */
  lemma ReadRun(db: DbState, steps: seq<Step>, w: nat, text: string) returns (longer: seq<Step>)
    requires w !in Protocol.Run(db, steps, OWNER).workers
    ensures var c := Protocol.Run(db, steps, OWNER);
            Protocol.Run(db, longer, OWNER) == c.(workers := c.workers[w := HasRead(text, Decoded(c.raw))])
  {
    RunMore(db, steps, Arrive(w, text));
    RunMore(db, steps + [Arrive(w, text)], Read(w));
    longer := steps + [Arrive(w, text)] + [Read(w)];
    var c := Protocol.Run(db, steps, OWNER);
    assert c.workers[w := Started(text)][w := HasRead(text, Decoded(c.raw))]
        == c.workers[w := HasRead(text, Decoded(c.raw))];
  }

  /** A new worker serves a message from reading to saving. */
  lemma MessageRun(db: DbState, steps: seq<Step>, w: nat, text: string, env: Env) returns (longer: seq<Step>)
    requires var c := Protocol.Run(db, steps, OWNER);
             && w !in c.workers && (c.raw.Absent? || c.raw.Stored?)
             && env.maxErrors == OWNER.maxErrors
             && EnvOk(OWNER.phone, World(c.db, c.db, []), env, OWNER.universe)
             && Serve(Opened(OWNER.phone, Decoded(c.raw)), c.db, text, env).session.Some?
             && (c.raw.Absent? ==> Opened(OWNER.phone, Decoded(c.raw)).state == IDLE)
    ensures var c := Protocol.Run(db, steps, OWNER);
            var service := Serve(Opened(OWNER.phone, Decoded(c.raw)), c.db, text, env);
            var end := Protocol.Run(db, longer, OWNER);
            && end.db == service.db && end.raw == Stored(service.session.value)
            && end.workers == c.workers[w := Finished]
            && end.trace == c.trace + [Saved(text, Decoded(c.raw), service.session.value, ReportedSale(service, c.db))]
  {
    hide EnvOk, Serve;
    var c := Protocol.Run(db, steps, OWNER);
    longer := ReadRun(db, steps, w, text);
    RunMore(db, longer, ProcessAndCommit(w, env));
    longer := longer + [ProcessAndCommit(w, env)];
    RunMore(db, longer, Save(w));
    longer := longer + [Save(w)];
    assert Protocol.Run(db, longer, OWNER).workers == c.workers[w := Finished];
  }

  // ------------------------------------------------------- a run to a confirmation

  lemma PlainWords()
    ensures !IsOverride("sell") && !IsOverride("soap") && !IsOverride("1")
    ensures ParseQuantity("1") == Good(1) && ParseConfirmation("yes") == Parsed.Good(true)
  {
    StripTight("sell");
    StripTight("soap");
    StripTight("1");
    StripTight("yes");
    assert ToLower("sell") == "sell" && ToLower("soap") == "soap" && ToLower("1") == "1" && ToLower("yes") == "yes";
    assert PrintNat(1) == "1";
    PrintedNumberParses(1);
  }

  lemma StartStep(v: Visit)
    requires Plain(v) && v.env.intent == RecordSale
    ensures var r := Visited(NewSession(OWNER.phone), v);
            && r.db == v.db && r.session.Some? && r.session.value.phone == OWNER.phone
            && r.session.value.state == RECORD_SALE_PRODUCT
  {
    hide IsOverride;
  }

  lemma Start(stock: int, threshold: int)
    ensures Protocol.Run(Shop(stock, threshold), [], OWNER) == Config(Absent, Shop(stock, threshold), map[], [])
    ensures FindByFuzzyName([SOAP_ROW], DEFAULTS) == ExactMatch(SOAP_ROW)
  {
  }

  /** Three messages lead from nothing to the confirmation of one piece of soap. */
  lemma ConfirmationRun(stock: int, threshold: int) returns (steps: seq<Step>, s: Session)
    requires 1 <= stock <= INTEGER_MAX
    ensures var c := Protocol.Run(Shop(stock, threshold), steps, OWNER);
            && c.db == Shop(stock, threshold) && c.raw == Stored(s)
            && 3 !in c.workers && 4 !in c.workers
    ensures s.phone == OWNER.phone && Offered(s, Shop(stock, threshold))
    ensures s.context.productId == Some(7) && s.context.productQty == Some(1)
  {
    hide Serve, EnvOk, IsOverride, ParseQuantity, Permitted, Next, ReportedSale, FindByFuzzyName, WithShopOf;
    Start(stock, threshold);
    var db := Shop(stock, threshold);
    var started := Visit("sell", db, Surrounding(RecordSale, [], {}));
    var named := Visit("soap", db, Surrounding(RecordSale, [SOAP_ROW], {}));
    var counted := Visit("1", db, Surrounding(RecordSale, [], {}));
    PlainWords();
    SurroundingIsLawful(db, RecordSale, [], {});
    SurroundingIsLawful(db, RecordSale, [SOAP_ROW], {});
    var s0 := NewSession(OWNER.phone);
    StartStep(started);
    steps := MessageRun(db, [], 0, started.text, started.env);
    var s1 := Visited(s0, started).session.value;
    ProductStep(s1, named);
    steps := MessageRun(db, steps, 1, named.text, named.env);
    var s2 := Visited(s1, named).session.value;
    SaleQuantityStep(s2, counted, 1);
    steps := MessageRun(db, steps, 2, counted.text, counted.env);
    s := Visited(s2, counted).session.value;
  }

  // ---------------------------------------------------------------- what goes wrong

  function TwoRivals(): seq<Rival> {
    [Rival(3, "yes", Surrounding(RecordSale, [], {})), Rival(4, "yes", Surrounding(RecordSale, [], {}))]
  }

  lemma RaceRun(stock: int) returns (steps: seq<Step>, s: Session)
    requires 1 <= stock <= INTEGER_MAX
    ensures var c := Protocol.Run(Shop(stock, 1), steps, OWNER);
            && c.db == Shop(stock, 1) && c.raw == Stored(s) && Offered(s, c.db)
            && AllAboutToConfirm(c, TwoRivals(), s, OWNER)
            && s.context.productId == Some(7) && s.context.productQty == Some(1)
  {
    hide EnvOk, Offered, ParseConfirmation, Protocol.Run;
    var db := Shop(stock, 1);
    steps, s := ConfirmationRun(stock, 1);
    steps := ReadRun(db, steps, 3, "yes");
    steps := ReadRun(db, steps, 4, "yes");
    PlainWords();
    SurroundingIsLawful(db, RecordSale, [], {});
  }

  /** One confirmation, served by two workers at once, is sold twice and reported once, as sale number 0. */
  lemma OneConfirmationSellsTwice() returns (steps: seq<Step>)
    ensures DbOk(Shop(6, 1), OWNER.universe)
    ensures var end := Protocol.Run(Shop(6, 1), steps, OWNER);
            && |end.db.sales| == 2 && 7 in end.db.inventory && end.db.inventory[7].quantity == 4
            && end.trace != [] && EventSale(end.trace[|end.trace| - 1]) == Some(0)
            && forall i :: 0 <= i < |end.trace| ==> EventSale(end.trace[i]) != Some(1)
  {
    hide Protocol.Run, AllAboutToConfirm, Processing, Saving, RunFrom, Offered;
    var s: Session;
    steps, s := RaceRun(6);
    var c := Protocol.Run(Shop(6, 1), steps, OWNER);
    var race := Processing(TwoRivals()) + Saving(TwoRivals());
    RacingConfirmations(c, TwoRivals(), s, OWNER);
    RunGoesOn(Shop(6, 1), steps, race, OWNER);
    NoSalesYet(steps);
    OfferedFacts(s, RunFrom(c, race, OWNER).db);
    steps := steps + race;
  }

  /** Before anything is sold, nothing is reported as sold. */
  lemma NoSalesYet(steps: seq<Step>)
    ensures var c := Protocol.Run(Shop(6, 1), steps, OWNER);
            c.db.sales == [] ==> forall i :: 0 <= i < |c.trace| ==> EventSale(c.trace[i]).None?
  {
    hide SoundUpdate, WellFormed;
    EveryRunIsSafe(Shop(6, 1), steps, OWNER);
    SaleRowsExist(Protocol.Run(Shop(6, 1), steps, OWNER), OWNER);
  }

  /** A sale of the last unit above the threshold, which a failed notification takes back. */
  lemma NotificationFailureLosesSale() returns (steps: seq<Step>, s: Session)
    ensures DbOk(Shop(6, 5), OWNER.universe)
    ensures var c := Protocol.Run(Shop(6, 5), steps, OWNER);
            var failing, working := Surrounding(RecordSale, [], {AlertEnqueue}), Surrounding(RecordSale, [], {});
            && c.db == Shop(6, 5) && c.raw == Stored(s) && WellFormed(s, OWNER.universe, OWNER.maxErrors)
            && Serve(s, c.db, "yes", failing).db == c.db && Serve(s, c.db, "yes", failing).session.None?
            && |Serve(s, c.db, "yes", working).db.sales| == 1
  {
    hide Offered, WellFormed, ParseConfirmation, Protocol.Run, Serve, Safe, ReadyToSell;
    var db := Shop(6, 5);
    steps, s := ConfirmationRun(6, 5);
    PlainWords();
    SaleGoesThroughIff(s, db, 0);
    SaleKeptAndAlertSent(s, db, "yes", Surrounding(RecordSale, [], {AlertEnqueue}));
    SaleKeptAndAlertSent(s, db, "yes", Surrounding(RecordSale, [], {}));
    SaleChangesDb(s, db, 0);
    EveryRunIsSafe(db, steps, OWNER);
    StoredSessionsAreWellFormed(db, steps, OWNER, 0);
  }
}
