/** What the compare-and-set does not give: it guards the session, not the sale. */
module Races {
  import opened Text
  import opened Inputs
  import opened Resolver
  import opened Ledger
  import opened Analytics
  import opened Conversation
  import opened SessionInvariant
  import opened Worker
  import opened Protocol
  import opened SaleAlerts

  /** A run that goes on from `c`. */
  ghost function RunFrom(c: Config, steps: seq<Step>, g: Setting): Config {
    if steps == [] then c
    else
      var before := RunFrom(c, steps[..|steps| - 1], g);
      if Permitted(before, steps[|steps| - 1], g) then Next(before, steps[|steps| - 1], g) else before
  }

  lemma {:induction false} RunGoesOn(db: DbState, steps: seq<Step>, more: seq<Step>, g: Setting)
    ensures Protocol.Run(db, steps + more, g) == RunFrom(Protocol.Run(db, steps, g), more, g)
  {
    hide Permitted, Next;
    if more == [] {
      assert steps + more == steps;
    } else {
      RunGoesOn(db, steps, more[..|more| - 1], g);
      assert (steps + more)[..|steps + more| - 1] == steps + more[..|more| - 1];
    }
  }

  lemma {:induction false} RunFromConcat(c: Config, steps: seq<Step>, more: seq<Step>, g: Setting)
    ensures RunFrom(c, steps + more, g) == RunFrom(RunFrom(c, steps, g), more, g)
  {
    hide Permitted, Next;
    if more == [] {
      assert steps + more == steps;
    } else {
      RunFromConcat(c, steps, more[..|more| - 1], g);
      assert (steps + more)[..|steps + more| - 1] == steps + more[..|more| - 1];
    }
  }

  // ---------------------------------------------------------- the rival workers

  /** A worker that has read the session `s` and is about to process a yes, and what it will meet. */
  datatype Rival = Rival(worker: nat, text: string, env: Env)

  predicate AboutToConfirm(c: Config, r: Rival, s: Session) {
    && r.worker in c.workers && c.workers[r.worker] == HasRead(r.text, Some(s))
    && ParseConfirmation(r.text) == Parsed.Good(true)
  }

  /** Any number of different workers, all of them with the same session, and nothing failing. */
  ghost predicate AllAboutToConfirm(c: Config, rivals: seq<Rival>, s: Session, g: Setting) {
    && (forall i, j :: 0 <= i < j < |rivals| ==> rivals[i].worker != rivals[j].worker)
    && forall i :: 0 <= i < |rivals| ==>
         && AboutToConfirm(c, rivals[i], s) && rivals[i].env.faults == {}
         && rivals[i].env.maxErrors == g.maxErrors
         && EnvOk(g.phone, World(c.db, c.db, []), rivals[i].env, g.universe)
  }

  function Processing(rivals: seq<Rival>): seq<Step> {
    seq(|rivals|, i requires 0 <= i < |rivals| => ProcessAndCommit(rivals[i].worker, rivals[i].env))
  }

  function Saving(rivals: seq<Rival>): seq<Step> {
    seq(|rivals|, i requires 0 <= i < |rivals| => Save(rivals[i].worker))
  }

  function Wanted(s: Session): int
    requires s.context.productQty.Some?
  {
    s.context.productQty.value
  }

  function InStock(s: Session, db: DbState): int
    requires s.context.productId.Some? && s.context.productId.value in db.inventory
  {
    db.inventory[s.context.productId.value].quantity
  }

  lemma EnvStaysOk(phone: string, db: DbState, later: DbState, env: Env, u: Universe)
    requires EnvOk(phone, World(db, db, []), env, u) && later.products == db.products
    ensures EnvOk(phone, World(later, later, []), env, u)
  {
    hide PossibleRows;
  }

  lemma SaleLeaves(s: Session, db: DbState, now: int)
    requires Offered(s, db) && ReadyToSell(s, db, now)
    ensures var sold := SaleOf(s, db, now).value.0;
            && Offered(s, sold) && InStock(s, sold) == InStock(s, db) - Wanted(s)
            && |sold.sales| == |db.sales| + 1 && sold.products == db.products
  {
    hide ReadyToSell, SaleOf;
    SaleGoesThroughIff(s, db, now);
    SaleChangesDb(s, db, now);
  }

  /** One rival sells exactly when the stock covers the sale; if not, its task fails and changes nothing. */
  lemma OneRivalConfirms(c: Config, r: Rival, s: Session, g: Setting)
    requires AboutToConfirm(c, r, s) && r.env.faults == {} && Offered(s, c.db)
    requires r.env.maxErrors == g.maxErrors && EnvOk(g.phone, World(c.db, c.db, []), r.env, g.universe)
    ensures Permitted(c, ProcessAndCommit(r.worker, r.env), g)
    ensures var c' := Next(c, ProcessAndCommit(r.worker, r.env), g);
            && c' == c.(db := c'.db, workers := c.workers[r.worker := c'.workers[r.worker]])
            && if Wanted(s) <= InStock(s, c.db) then
                 && Offered(s, c'.db) && InStock(s, c'.db) == InStock(s, c.db) - Wanted(s)
                 && |c'.db.sales| == |c.db.sales| + 1 && c'.db.products == c.db.products
                 && c'.workers[r.worker].Processed? && c'.workers[r.worker].text == r.text
                 && c'.workers[r.worker].before == Some(s)
                 && c'.workers[r.worker].after.state == IDLE
                 && c'.workers[r.worker].sale == Some(|c.db.sales|)
               else c'.db == c.db && c'.workers[r.worker] == Finished
  {
    hide EnvOk, ParseConfirmation, ReadyToSell, SaleOf;
    SaleGoesThroughIff(s, c.db, r.env.now);
    if Wanted(s) <= InStock(s, c.db) {
      SaleKeptAndAlertSent(s, c.db, r.text, r.env);
      MessageAddsReportedSale(s, c.db, r.text, r.env);
      SaleLeaves(s, c.db, r.env.now);
    } else {
      SoldOut(s, c.db, r.text, r.env);
    }
  }

  lemma SoldOut(s: Session, db: DbState, text: string, env: Env)
    requires Offered(s, db) && Wanted(s) > InStock(s, db) && ParseConfirmation(text) == Parsed.Good(true)
    ensures Serve(s, db, text, env).session.None? && Serve(s, db, text, env).db == db
  {
    hide ParseConfirmation, RecordedSale;
    AnswerIsNoOverride(text);
    SaleGoesThroughIff(s, db, env.now);
    assert SaleOf(s, db, env.now) == Failed(NotEnoughStock);
    assert Handle(s, World(db, db, []), text, env) == SaleConfirmed(s, World(db, db, []), Parsed.Good(true), env);
  }

  /** How many of `n` rivals sell, one after the other. */
  function Covered(n: nat, stock: int, quantity: int): (sold: nat)
    ensures sold <= n
    ensures sold < n ==> quantity > stock - quantity * sold
  {
    if n == 0 then 0
    else
      var before := Covered(n - 1, stock, quantity);
      if quantity <= stock - quantity * before then before + 1 else before
  }

  function Min(a: int, b: int): int {
    if a <= b then a else b
  }

  lemma FitsIff(n: int, stock: int, quantity: int)
    requires quantity > 0
    ensures quantity * n <= stock <==> n <= stock / quantity
  {
    var q := stock / quantity;
    assert stock == quantity * q + stock % quantity;
    assert quantity * (q - n) == quantity * q - quantity * n;
    ProductSign(quantity, q - n);
  }

  lemma ProductSign(k: int, d: int)
    requires k > 0
    ensures d >= 0 ==> k * d >= 0
    ensures d < 0 ==> k * d <= -k
  {
    if d < 0 {
      assert k * (-d - 1) >= 0;
    }
  }

  /** The stock covers as many sales as it contains whole quantities. */
  lemma {:induction false} CoveredIsQuotient(n: nat, stock: int, quantity: int)
    requires quantity > 0 && stock >= 0
    ensures Covered(n, stock, quantity) == Min(n, stock / quantity)
  {
    FitsIff(0, stock, quantity);
    if n > 0 {
      CoveredIsQuotient(n - 1, stock, quantity);
      var before := Covered(n - 1, stock, quantity);
      FitsIff(before + 1, stock, quantity);
      StockSteps(quantity, before);
    }
  }

  lemma StockSteps(quantity: int, sold: int)
    ensures quantity * (sold + 1) == quantity * sold + quantity
  {
  }

  /** Rival `i` has processed its message: sold, as sale number `i`, or turned away. */
  predicate RivalDone(stage: Stage, text: string, i: nat, sold: int, firstSale: nat, s: Session) {
    if i < sold then
      && stage.Processed? && stage.text == text && stage.before == Some(s)
      && stage.after.state == IDLE && stage.sale == Some(firstSale + i)
    else stage == Finished
  }

  /** After `n` rivals have processed their messages, one after the other. */
  ghost predicate AfterRivals(c: Config, after: Config, rivals: seq<Rival>, n: nat, s: Session, g: Setting)
    requires n <= |rivals| && Offered(s, c.db)
  {
    var sold := Covered(n, InStock(s, c.db), Wanted(s));
    && after.raw == c.raw && after.trace == c.trace && after.db.products == c.db.products
    && Offered(s, after.db) && InStock(s, after.db) == InStock(s, c.db) - Wanted(s) * sold
    && |after.db.sales| == |c.db.sales| + sold
    && (forall i :: 0 <= i < n ==>
          rivals[i].worker in after.workers
          && RivalDone(after.workers[rivals[i].worker], rivals[i].text, i, sold, |c.db.sales|, s))
    && (forall i :: n <= i < |rivals| ==>
          && rivals[i].worker in c.workers && rivals[i].worker in after.workers
          && after.workers[rivals[i].worker] == c.workers[rivals[i].worker])
  }

  lemma OneMoreRival(c: Config, before: Config, rivals: seq<Rival>, n: nat, s: Session, g: Setting)
    requires n < |rivals| && AllAboutToConfirm(c, rivals, s, g) && Offered(s, c.db)
    requires AfterRivals(c, before, rivals, n, s, g)
    ensures Permitted(before, ProcessAndCommit(rivals[n].worker, rivals[n].env), g)
    ensures AfterRivals(c, Next(before, ProcessAndCommit(rivals[n].worker, rivals[n].env), g), rivals, n + 1, s, g)
  {
    hide EnvOk, Offered, ParseConfirmation, Next, Permitted, InStock;
    OfferedFacts(s, c.db);
    var r, sold := rivals[n], Covered(n, InStock(s, c.db), Wanted(s));
    EnvStaysOk(g.phone, c.db, before.db, r.env, g.universe);
    OneRivalConfirms(before, r, s, g);
    StockSteps(Wanted(s), sold);
  }

  lemma OfferedFacts(s: Session, db: DbState)
    requires Offered(s, db)
    ensures s.context.productId.Some? && s.context.productQty.Some? && Wanted(s) > 0
    ensures s.context.productId.value in db.inventory
  {
  }

  lemma {:induction false} RivalsProcess(c: Config, rivals: seq<Rival>, n: nat, s: Session, g: Setting)
    requires n <= |rivals| && AllAboutToConfirm(c, rivals, s, g) && Offered(s, c.db)
    ensures AfterRivals(c, RunFrom(c, Processing(rivals)[..n], g), rivals, n, s, g)
  {
    hide AfterRivals, Next, Permitted, Offered, AllAboutToConfirm;
    if n == 0 {
      NobodyYet(c, rivals, s, g);
    } else {
      var steps := Processing(rivals)[..n];
      RivalsProcess(c, rivals, n - 1, s, g);
      assert steps[..n - 1] == Processing(rivals)[..n - 1];
      OneMoreRival(c, RunFrom(c, steps[..n - 1], g), rivals, n - 1, s, g);
    }
  }

  lemma NobodyYet(c: Config, rivals: seq<Rival>, s: Session, g: Setting)
    requires AllAboutToConfirm(c, rivals, s, g) && Offered(s, c.db)
    ensures AfterRivals(c, c, rivals, 0, s, g)
  {
    hide EnvOk, ParseConfirmation;
  }

  // ------------------------------------------------------------------ the saves

  /** After `n` of the rivals have tried to save: the first one has, nobody else could. */
  ghost predicate AfterSaves(after: Config, saved: Config, rivals: seq<Rival>, n: nat, sold: int, s: Session) {
    && saved.db == after.db
    && (if sold == 0 || n == 0 then saved.raw == after.raw && saved.trace == after.trace
        else
          && |rivals| > 0 && rivals[0].worker in after.workers && after.workers[rivals[0].worker].Processed?
          && var p := after.workers[rivals[0].worker];
          && saved.raw == Stored(p.after) && saved.trace == after.trace + [Saved(p.text, p.before, p.after, p.sale)])
    && (forall i :: n <= i < |rivals| ==>
          rivals[i].worker in saved.workers && rivals[i].worker in after.workers
          && saved.workers[rivals[i].worker] == after.workers[rivals[i].worker])
  }

  /** What a rival's save does: it goes through on the session that the rival read, it is refused once that
      session is back in IDLE, and there is none for a rival that was turned away. */
  lemma RivalSaves(c: Config, w: nat, s: Session, g: Setting)
    requires w in c.workers && s.state == SessionState.CONFIRM_SALE && c.raw.Stored?
    ensures var stage := c.workers[w];
            var done := c.(workers := c.workers[w := Finished]);
            && (stage == Finished ==> !Permitted(c, Save(w), g))
            && (stage.Processed? && stage.before == Some(s) ==>
                  && Permitted(c, Save(w), g)
                  && (c.raw == Stored(s) ==>
                        Next(c, Save(w), g) == done.(raw := Stored(stage.after),
                          trace := c.trace + [Saved(stage.text, stage.before, stage.after, stage.sale)]))
                  && (c.raw.session.state == IDLE ==> Next(c, Save(w), g) == done))
  {
  }

  lemma OneMoreSave(
    c: Config, after: Config, before: Config, rivals: seq<Rival>, n: nat, s: Session, g: Setting)
    requires n < |rivals| && AllAboutToConfirm(c, rivals, s, g) && Offered(s, c.db)
    requires AfterRivals(c, after, rivals, |rivals|, s, g)
    requires c.raw == Stored(s)
    requires var sold := Covered(|rivals|, InStock(s, c.db), Wanted(s));
             AfterSaves(after, before, rivals, n, sold, s)
    ensures var sold := Covered(|rivals|, InStock(s, c.db), Wanted(s));
            var step := Save(rivals[n].worker);
            AfterSaves(after, if Permitted(before, step, g) then Next(before, step, g) else before,
                       rivals, n + 1, sold, s)
  {
    hide EnvOk, ParseConfirmation, InStock, Covered, Next, Permitted;
    RivalSaves(before, rivals[n].worker, s, g);
    var sold := Covered(|rivals|, InStock(s, c.db), Wanted(s));
    assert s.state == SessionState.CONFIRM_SALE;
    assert RivalDone(after.workers[rivals[n].worker], rivals[n].text, n, sold, |c.db.sales|, s);
    if sold > 0 {
      assert RivalDone(after.workers[rivals[0].worker], rivals[0].text, 0, sold, |c.db.sales|, s);
    }
  }

  lemma {:induction false} RivalsSave(c: Config, after: Config, rivals: seq<Rival>, n: nat, s: Session, g: Setting)
    requires n <= |rivals| && AllAboutToConfirm(c, rivals, s, g) && Offered(s, c.db) && c.raw == Stored(s)
    requires AfterRivals(c, after, rivals, |rivals|, s, g)
    ensures AfterSaves(after, RunFrom(after, Saving(rivals)[..n], g), rivals, n,
                       Covered(|rivals|, InStock(s, c.db), Wanted(s)), s)
  {
    hide Next, Permitted, Offered, AllAboutToConfirm, Covered, InStock;
    OfferedFacts(s, c.db);
    if n > 0 {
      var steps := Saving(rivals)[..n];
      RivalsSave(c, after, rivals, n - 1, s, g);
      assert steps[..n - 1] == Saving(rivals)[..n - 1];
      OneMoreSave(c, after, RunFrom(after, steps[..n - 1], g), rivals, n - 1, s, g);
    }
  }

  // ------------------------------------------------------------------- results

  /** Any number of workers that read the same session and process a yes before any of them saves: as many
      of them sell as the stored row covers, and one of them, the first, saves and reports its sale. */
  lemma RacingConfirmations(c: Config, rivals: seq<Rival>, s: Session, g: Setting)
    requires AllAboutToConfirm(c, rivals, s, g) && Offered(s, c.db) && c.raw == Stored(s)
    ensures var end := RunFrom(c, Processing(rivals) + Saving(rivals), g);
            var sold := Min(|rivals|, InStock(s, c.db) / Wanted(s));
            && |end.db.sales| == |c.db.sales| + sold
            && Offered(s, end.db) && InStock(s, end.db) == InStock(s, c.db) - Wanted(s) * sold
            && if sold == 0 then end.raw == c.raw && end.trace == c.trace
               else
                 && end.raw.Stored? && end.raw.session.state == IDLE
                 && end.trace == c.trace + [Saved(rivals[0].text, Some(s), end.raw.session, Some(|c.db.sales|))]
  {
    hide AllAboutToConfirm, Next, Permitted, Covered;
    var after, sold := RunFrom(c, Processing(rivals), g), Covered(|rivals|, InStock(s, c.db), Wanted(s));
    CoveredIsQuotient(|rivals|, InStock(s, c.db), Wanted(s));
    RunFromConcat(c, Processing(rivals), Saving(rivals), g);
    RivalsProcess(c, rivals, |rivals|, s, g);
    assert Processing(rivals)[..|rivals|] == Processing(rivals);
    RivalsSave(c, after, rivals, |rivals|, s, g);
    assert Saving(rivals)[..|rivals|] == Saving(rivals);
    if sold > 0 {
      assert RivalDone(after.workers[rivals[0].worker], rivals[0].text, 0, sold, |c.db.sales|, s);
    }
  }

  /** Of two such workers the second one sells as well exactly when the stored row covers both sales. */
  lemma SecondConfirmationSellsIff(c: Config, first: Rival, second: Rival, s: Session, g: Setting)
    requires AllAboutToConfirm(c, [first, second], s, g) && Offered(s, c.db) && c.raw == Stored(s)
    ensures var end := RunFrom(c, Processing([first, second]) + Saving([first, second]), g);
            |end.db.sales| == |c.db.sales| + 2 <==> 2 * Wanted(s) <= InStock(s, c.db)
  {
    hide RunFrom, AllAboutToConfirm;
    RacingConfirmations(c, [first, second], s, g);
    FitsIff(2, InStock(s, c.db), Wanted(s));
  }
}
