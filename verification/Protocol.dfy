/** Any number of workers serving one phone number at once: reads, processing with its commit, and
    compare-and-set saves, interleaved with key expiry and with other users of the database. */
module Protocol {
  import opened Text
  import opened Inputs
  import opened Resolver
  import opened Ledger
  import opened Analytics
  import opened Conversation
  import opened SessionInvariant
  import opened Worker

  datatype Stage =
    | Started(text: string)
    | HasRead(text: string, before: Option<Session>)
    | Processed(text: string, before: Option<Session>, after: Session, sale: Option<nat>) // committed, not yet saved
    | Finished

  /** A save that went through, with the message and the session it was computed from and the index of the
      sale row that its reply reports; or the expiry of the key. */
  datatype Event = Saved(text: string, before: Option<Session>, after: Session, sale: Option<nat>) | Expired

  datatype Config = Config(raw: Raw, db: DbState, workers: map<nat, Stage>, trace: seq<Event>)

  datatype Step =
    | Arrive(w: nat, text: string)
    | Read(w: nat)
    | ProcessAndCommit(w: nat, env: Env)
    | Save(w: nat)
    | Expire
    | Outside(db: DbState)

  /** What the outside world may do: serve a message under any lawful environment, and change the
      database without forgetting sales or re-using ids. */
  ghost predicate Permitted(c: Config, step: Step, g: Setting) {
    match step
    case Arrive(w, _) => w !in c.workers
    case Read(w) => w in c.workers && c.workers[w].Started?
    case ProcessAndCommit(w, env) =>
      && w in c.workers && c.workers[w].HasRead?
      && env.maxErrors == g.maxErrors && EnvOk(g.phone, World(c.db, c.db, []), env, g.universe)
    case Save(w) => w in c.workers && c.workers[w].Processed?
    case Expire => !c.raw.Absent?
    case Outside(db) => DbOk(db, g.universe) && c.db.sales <= db.sales
  }

  function ReportedSale(service: Service, db: DbState): Option<nat> {
    if service.reply == Done(SaleRecorded) then Some(|db.sales|) else None
  }

  function Next(c: Config, step: Step, g: Setting): Config
    requires Permitted(c, step, g)
  {
    match step
    case Arrive(w, text) => c.(workers := c.workers[w := Started(text)])
    case Read(w) => c.(workers := c.workers[w := HasRead(c.workers[w].text, Decoded(c.raw))])
    case ProcessAndCommit(w, env) =>
      var before := c.workers[w].before;
      var service := Serve(Opened(g.phone, before), c.db, c.workers[w].text, env);
      var stage :=
        if service.session.None? then Finished
        else Processed(c.workers[w].text, before, service.session.value, ReportedSale(service, c.db));
      c.(db := service.db, workers := c.workers[w := stage])
    case Save(w) =>
      var p := c.workers[w];
      var (raw, result) := UpdateScript(c.raw, ExpectedState(p.before), p.after);
      var saved := Saved(p.text, p.before, p.after, p.sale);
      c.(raw := raw, workers := c.workers[w := Finished],
         trace := if result == SaveResult.Success then c.trace + [saved] else c.trace)
    case Expire => c.(raw := Absent, trace := c.trace + [Expired])
    case Outside(db) => c.(db := db)
  }

  function Start(db: DbState): Config {
    Config(Absent, db, map[], [])
  }

  /** Where a run ends; steps that are not permitted when their turn comes are skipped. */
  ghost function Run(db: DbState, steps: seq<Step>, g: Setting): Config {
    if steps == [] then Start(db)
    else
      var c := Run(db, steps[..|steps| - 1], g);
      if Permitted(c, steps[|steps| - 1], g) then Next(c, steps[|steps| - 1], g) else c
  }

  // --------------------------------------------------------------- invariants

  ghost predicate Good(s: Session, g: Setting) {
    s.phone == g.phone && WellFormed(s, g.universe, g.maxErrors)
  }

  ghost predicate GoodIfAny(s: Option<Session>, g: Setting) {
    s.Some? ==> Good(s.value, g)
  }

  /** The sale row at `i` is the one that the merchant confirmed from `before`, and `text` reads as a yes. */
  ghost predicate RowConfirmed(i: nat, db: DbState, text: string, before: Option<Session>, after: Session) {
    && ParseConfirmation(text) == Parsed.Good(true)
    && before.Some? && before.value.state == SessionState.CONFIRM_SALE && after.state == IDLE
    && i < |db.sales|
    && before.value.context.shopId == Some(db.sales[i].shopId)
    && before.value.context.productId == Some(db.sales[i].productId)
    && before.value.context.productQty == Some(db.sales[i].quantity)
  }

  /** One message extends the history at its end, by at most two states. */
  predicate Extends(before: Session, after: Session) {
    Path(before) <= Path(after) && |Path(after)| <= |Path(before)| + 2
  }

  ghost predicate SoundUpdate(
    text: string, before: Option<Session>, after: Session, sale: Option<nat>, db: DbState, g: Setting) {
    && GoodIfAny(before, g) && Good(after, g)
    && MessageEdge(ExpectedState(before), after.state)
    && Extends(Opened(g.phone, before), after)
    && (sale.Some? ==> RowConfirmed(sale.value, db, text, before, after))
  }

  ghost predicate SoundStage(stage: Stage, db: DbState, g: Setting) {
    match stage
    case HasRead(_, before) => GoodIfAny(before, g)
    case Processed(text, before, after, sale) => SoundUpdate(text, before, after, sale, db, g)
    case _ => true
  }

  ghost predicate SoundEvent(e: Event, db: DbState, g: Setting) {
    e.Saved? ==> SoundUpdate(e.text, e.before, e.after, e.sale, db, g)
  }

  function StageSale(stage: Stage): Option<nat> {
    if stage.Processed? then stage.sale else None
  }

  function EventSale(e: Event): Option<nat> {
    if e.Saved? then e.sale else None
  }

  /** No sale row is reported twice, by a save or by a worker that is about to save. */
  ghost predicate SalesClaimedOnce(workers: map<nat, Stage>, trace: seq<Event>) {
    && (forall w, v :: w in workers && v in workers && w != v && StageSale(workers[w]).Some? ==>
          StageSale(workers[w]) != StageSale(workers[v]))
    && (forall i, j :: 0 <= i < j < |trace| && EventSale(trace[i]).Some? ==>
          EventSale(trace[i]) != EventSale(trace[j]))
    && (forall w, i :: w in workers && 0 <= i < |trace| && StageSale(workers[w]).Some? ==>
          StageSale(workers[w]) != EventSale(trace[i]))
  }

  /** Nobody but worker `w` reports the sale row `n`. */
  ghost predicate FreeFor(w: nat, n: nat, workers: map<nat, Stage>, trace: seq<Event>) {
    && (forall v :: v in workers && v != w ==> StageSale(workers[v]) != Some(n))
    && (forall i :: 0 <= i < |trace| ==> EventSale(trace[i]) != Some(n))
  }

  /** Between expiries, each save moves the stored state along an edge of the message graph, from
      exactly the state that the save before it left. */
  ghost predicate TraceIsPath(trace: seq<Event>) {
    forall i :: 0 <= i < |trace| - 1 && trace[i].Saved? && trace[i + 1].Saved? ==>
      && trace[i].after.state == ExpectedState(trace[i + 1].before)
      && MessageEdge(trace[i].after.state, trace[i + 1].after.state)
  }

  ghost predicate StoreMatchesTrace(c: Config) {
    c.raw == if c.trace != [] && c.trace[|c.trace| - 1].Saved? then Stored(c.trace[|c.trace| - 1].after) else Absent
  }

  ghost predicate Safe(c: Config, g: Setting) {
    && DbOk(c.db, g.universe)
    && (forall w :: w in c.workers ==> SoundStage(c.workers[w], c.db, g))
    && (forall i :: 0 <= i < |c.trace| ==> SoundEvent(c.trace[i], c.db, g))
    && StoreMatchesTrace(c)
    && TraceIsPath(c.trace)
    && SalesClaimedOnce(c.workers, c.trace)
  }

  // ------------------------------------------------- what a message does to sales

  lemma ConfirmSaleAddsOneRow(s: Session, w: World, answer: Parsed<bool>, env: Env)
    requires w.committed.sales == w.working.sales
    ensures var h := SaleConfirmed(s, w, answer, env);
            && h.world.committed.sales == w.committed.sales
            && (h.reply == Done(SaleRecorded) ==>
                  && answer == Parsed.Good(true) && h.session.state == IDLE
                  && s.context.shopId.Some? && s.context.productId.Some? && s.context.productQty.Some?
                  && exists price :: h.world.working.sales == w.working.sales
                       + [Sale(s.context.shopId.value, s.context.productId.value, s.context.productQty.value,
                               price, env.now)])
            && (!h.reply.Escaped? && h.reply != Done(SaleRecorded) ==> h.world.working.sales == w.working.sales)
            && (answer != Parsed.Good(true) ==> h.world == w)
  {
    var c := s.context;
    if answer == Parsed.Good(true) && HasProduct(c) && c.productQty.Some? && c.shopId.Some? {
      var r := RecordedSale(w.working, c.shopId.value, c.productId.value, c.productQty.value, env.now);
      if r.Ok? {
        var price := w.working.products[c.productId.value].price;
        assert r.value.0.sales == w.working.sales
          + [Sale(c.shopId.value, c.productId.value, c.productQty.value, price, env.now)];
      }
    }
  }

  /** A message adds one sale row, the confirmed one, when it reports a recorded sale, which takes a yes, and
      none otherwise; and nothing of a sale is committed before the end of the message. */
  lemma MessageAddsReportedSale(s: Session, db: DbState, text: string, env: Env)
    ensures var service := Serve(s, db, text, env);
            && db.sales <= service.db.sales
            && (service.session.None? ==> service.db.sales == db.sales)
            && (service.session.Some? && service.reply != Done(SaleRecorded) ==> service.db.sales == db.sales)
            && (service.session.Some? && service.reply == Done(SaleRecorded) ==>
                  && |service.db.sales| == |db.sales| + 1
                  && RowConfirmed(|db.sales|, service.db, text, Some(s), service.session.value))
  {
    var w := World(db, db, []);
    var h := Process(s, w, text, env);
    if !IsOverride(text) {
      if s.state == SessionState.CONFIRM_SALE {
        ConfirmSaleAddsOneRow(s, w, ParseConfirmation(text), env);
        assert Handle(s, w, text, env) == SaleConfirmed(s, w, ParseConfirmation(text), env);
      }
    }
  }

  // ----------------------------------------------------------------- induction

  lemma NewSessionIsGood(g: Setting)
    ensures Good(NewSession(g.phone), g)
  {
    assert Path(NewSession(g.phone)) == [IDLE];
  }

  lemma ChatHandlersMoveTwice(s: Session, w: World, text: string, env: Env)
    requires s.state !in {IDLE, START_ADD_PRODUCT, REPORT_PENDING}
    ensures |Handle(s, w, text, env).session.context.history| <= |s.context.history| + 2
  {
    hide ParseProductName, ParsePrice, ParseQuantity, ParseConfirmation, GetShopId, RecordedSale;
    hide PersistProduct, FindByFuzzyName, Execute, ParseInt, Stocked, AnalyticsKey, ResumedOutcome, HandleIdle;
  }

  lemma IdleHandlersMoveTwice(s: Session, w: World, text: string, env: Env)
    ensures |HandleIdle(s, w, text, env).session.context.history| <= |s.context.history| + 2
  {
    hide GetShopId, Orchestrated, CanRoute, AnalyticsKey;
  }

  /** A handler moves the session once, and the report moves it twice. */
  lemma HandlersMoveTwice(s: Session, w: World, text: string, env: Env)
    ensures |Handle(s, w, text, env).session.context.history| <= |s.context.history| + 2
  {
    hide HandleIdle;
    if s.state in {IDLE, START_ADD_PRODUCT, REPORT_PENDING} {
      IdleHandlersMoveTwice(s, w, text, env);
      assert Handle(s, w, text, env) == HandleIdle(s, w, text, env);
    } else {
      ChatHandlersMoveTwice(s, w, text, env);
    }
  }

  lemma MessagesMoveTwice(s: Session, w: World, text: string, env: Env)
    ensures |Path(Process(s, w, text, env).session)| <= |Path(s)| + 2
  {
    hide Handle, IsOverride;
    HandlersMoveTwice(s, w, text, env);
  }

  lemma ProcessingIsSound(c: Config, w: nat, env: Env, g: Setting)
    requires Safe(c, g) && Permitted(c, ProcessAndCommit(w, env), g)
    ensures var c' := Next(c, ProcessAndCommit(w, env), g);
            && DbOk(c'.db, g.universe) && c.db.sales <= c'.db.sales
            && SoundStage(c'.workers[w], c'.db, g)
            && (StageSale(c'.workers[w]).Some? ==> StageSale(c'.workers[w]) == Some(|c.db.sales|))
  {
    hide ContextFits, Walk, Path, PossibleRows, Process;
    var before, text := c.workers[w].before, c.workers[w].text;
    var s := Opened(g.phone, before);
    NewSessionIsGood(g);
    MessageKeepsInvariant(s, World(c.db, c.db, []), text, env, g.universe);
    MessageAddsReportedSale(s, c.db, text, env);
    MessagesMoveTwice(s, World(c.db, c.db, []), text, env);
    if before.None? {
      assert s.state == IDLE;
    }
  }

  lemma LaterDbKeepsRows(c: Config, db: DbState, g: Setting)
    requires Safe(c, g) && c.db.sales <= db.sales
    ensures forall w :: w in c.workers ==> SoundStage(c.workers[w], db, g)
    ensures forall i :: 0 <= i < |c.trace| ==> SoundEvent(c.trace[i], db, g)
  {
    hide WellFormed, MessageEdge, Path, DbOk, ParseConfirmation, TraceIsPath, SalesClaimedOnce;
  }

  lemma SaleRowsExist(c: Config, g: Setting)
    requires Safe(c, g)
    ensures forall w :: w in c.workers && StageSale(c.workers[w]).Some? ==> StageSale(c.workers[w]).value < |c.db.sales|
    ensures forall i :: 0 <= i < |c.trace| && EventSale(c.trace[i]).Some? ==> EventSale(c.trace[i]).value < |c.db.sales|
  {
    forall w | w in c.workers && StageSale(c.workers[w]).Some?
      ensures StageSale(c.workers[w]).value < |c.db.sales|
    {
      assert SoundStage(c.workers[w], c.db, g);
    }
    forall i | 0 <= i < |c.trace| && EventSale(c.trace[i]).Some?
      ensures EventSale(c.trace[i]).value < |c.db.sales|
    {
      assert SoundEvent(c.trace[i], c.db, g);
    }
  }

  lemma ClaimsAfterStage(workers: map<nat, Stage>, trace: seq<Event>, w: nat, stage: Stage)
    requires SalesClaimedOnce(workers, trace)
    requires StageSale(stage).Some? ==> FreeFor(w, StageSale(stage).value, workers, trace)
    ensures SalesClaimedOnce(workers[w := stage], trace)
  {
  }

  lemma ClaimsAfterSave(workers: map<nat, Stage>, trace: seq<Event>, w: nat, e: Event)
    requires SalesClaimedOnce(workers, trace) && w in workers && StageSale(workers[w]) == EventSale(e)
    ensures SalesClaimedOnce(workers[w := Finished], trace + [e])
  {
  }

  /** Worker `w` moves to a sound stage, and the store and its trace stay as they are. */
  lemma StageKeepsSafe(c: Config, w: nat, stage: Stage, db: DbState, g: Setting)
    requires Safe(c, g) && DbOk(db, g.universe) && c.db.sales <= db.sales && SoundStage(stage, db, g)
    requires StageSale(stage).Some? ==> FreeFor(w, StageSale(stage).value, c.workers, c.trace)
    ensures Safe(c.(db := db, workers := c.workers[w := stage]), g)
  {
    LaterDbKeepsRows(c, db, g);
    ClaimsAfterStage(c.workers, c.trace, w, stage);
  }

  lemma ProcessKeepsSafe(c: Config, w: nat, env: Env, g: Setting)
    requires Safe(c, g) && Permitted(c, ProcessAndCommit(w, env), g)
    ensures Safe(Next(c, ProcessAndCommit(w, env), g), g)
  {
    var c' := Next(c, ProcessAndCommit(w, env), g);
    ProcessingIsSound(c, w, env, g);
    SaleRowsExist(c, g);
    assert FreeFor(w, |c.db.sales|, c.workers, c.trace);
    StageKeepsSafe(c, w, c'.workers[w], c'.db, g);
  }

  lemma PathGrows(c: Config, p: Stage, g: Setting)
    requires StoreMatchesTrace(c) && TraceIsPath(c.trace) && p.Processed?
    requires MessageEdge(ExpectedState(p.before), p.after.state)
    requires UpdateScript(c.raw, ExpectedState(p.before), p.after).1 == SaveResult.Success
    ensures TraceIsPath(c.trace + [Saved(p.text, p.before, p.after, p.sale)])
  {
    var trace := c.trace + [Saved(p.text, p.before, p.after, p.sale)];
    forall i | 0 <= i < |trace| - 1 && trace[i].Saved? && trace[i + 1].Saved?
      ensures trace[i].after.state == ExpectedState(trace[i + 1].before)
      ensures MessageEdge(trace[i].after.state, trace[i + 1].after.state)
    {
      if i < |c.trace| - 1 {
        assert trace[i] == c.trace[i] && trace[i + 1] == c.trace[i + 1];
      } else {
        assert c.raw == Stored(trace[i].after);
      }
    }
  }

  /** The store and its trace after a save that goes through. */
  lemma SavedKeepsSafe(c: Config, w: nat, g: Setting)
    requires Safe(c, g) && w in c.workers && c.workers[w].Processed?
    requires var p := c.workers[w];
             UpdateScript(c.raw, ExpectedState(p.before), p.after).1 == SaveResult.Success
    ensures var p := c.workers[w];
            Safe(c.(raw := Stored(p.after), workers := c.workers[w := Finished],
                    trace := c.trace + [Saved(p.text, p.before, p.after, p.sale)]), g)
  {
    hide SoundUpdate, WellFormed, DbOk, MessageEdge, TraceIsPath, SalesClaimedOnce;
    var p := c.workers[w];
    var e := Saved(p.text, p.before, p.after, p.sale);
    assert SoundStage(p, c.db, g);
    EdgeOfUpdate(p, c.db, g);
    PathGrows(c, p, g);
    ClaimsAfterSave(c.workers, c.trace, w, e);
    var trace := c.trace + [e];
    forall i | 0 <= i < |trace| ensures SoundEvent(trace[i], c.db, g) {
      assert trace[i] == if i < |c.trace| then c.trace[i] else e;
    }
  }

  lemma EdgeOfUpdate(p: Stage, db: DbState, g: Setting)
    requires p.Processed? && SoundStage(p, db, g)
    ensures MessageEdge(ExpectedState(p.before), p.after.state)
  {
    hide WellFormed;
  }

  /** The compare-and-set: a save that goes through starts from the state that is stored. */
  lemma SaveKeepsSafe(c: Config, w: nat, g: Setting)
    requires Safe(c, g) && Permitted(c, Save(w), g)
    ensures Safe(Next(c, Save(w), g), g)
  {
    hide Safe;
    var p := c.workers[w];
    if UpdateScript(c.raw, ExpectedState(p.before), p.after).1 == SaveResult.Success {
      SavedKeepsSafe(c, w, g);
    } else {
      DbStays(c, g);
      StageKeepsSafe(c, w, Finished, c.db, g);
    }
  }

  lemma DbStays(c: Config, g: Setting)
    requires Safe(c, g)
    ensures DbOk(c.db, g.universe)
  {
  }

  lemma ReadKeepsSafe(c: Config, w: nat, g: Setting)
    requires Safe(c, g) && Permitted(c, Read(w), g)
    ensures Safe(Next(c, Read(w), g), g)
  {
    if c.raw.Stored? {
      assert SoundEvent(c.trace[|c.trace| - 1], c.db, g);
    }
    StageKeepsSafe(c, w, HasRead(c.workers[w].text, Decoded(c.raw)), c.db, g);
  }

  lemma ExpireKeepsSafe(c: Config, g: Setting)
    requires Safe(c, g)
    ensures Safe(c.(raw := Absent, trace := c.trace + [Expired]), g)
  {
    var trace := c.trace + [Expired];
    assert forall i :: 0 <= i < |trace| ==> trace[i] == if i < |c.trace| then c.trace[i] else Expired;
    assert SalesClaimedOnce(c.workers, trace);
  }

  lemma StepKeepsSafe(c: Config, step: Step, g: Setting)
    requires Safe(c, g) && Permitted(c, step, g)
    ensures Safe(Next(c, step, g), g)
  {
    match step {
      case Arrive(w, text) => StageKeepsSafe(c, w, Started(text), c.db, g);
      case Read(w) => ReadKeepsSafe(c, w, g);
      case ProcessAndCommit(w, env) => ProcessKeepsSafe(c, w, env, g);
      case Save(w) => SaveKeepsSafe(c, w, g);
      case Expire => ExpireKeepsSafe(c, g);
      case Outside(db) => LaterDbKeepsRows(c, db, g);
    }
  }

  /** In every run of any number of workers: every stored session is well-formed; between expiries the
      stored states walk along the message graph although the workers race; and every save that
      reports a recorded sale has its own committed row, the one that the message confirmed with a yes. */
  lemma {:induction false} EveryRunIsSafe(db: DbState, steps: seq<Step>, g: Setting)
    requires DbOk(db, g.universe)
    ensures Safe(Run(db, steps, g), g)
  {
    if steps != [] {
      var c := Run(db, steps[..|steps| - 1], g);
      EveryRunIsSafe(db, steps[..|steps| - 1], g);
      if Permitted(c, steps[|steps| - 1], g) {
        StepKeepsSafe(c, steps[|steps| - 1], g);
      }
    }
  }

  /** Spelled out for the store: the key is absent or holds a well-formed session, so the script never
      reports corrupted data, and a refused save always means that the stored state has moved on. */
  lemma StoredSessionsAreWellFormed(db: DbState, steps: seq<Step>, g: Setting, w: nat)
    requires DbOk(db, g.universe)
    ensures var c := Run(db, steps, g);
            && (c.raw.Absent? || (c.raw.Stored? && Good(c.raw.session, g)))
            && (w in c.workers && c.workers[w].Processed? ==>
                  var result := UpdateScript(c.raw, ExpectedState(c.workers[w].before), c.workers[w].after).1;
                  && result != CorruptedData
                  && (result == StateMismatch <==>
                        c.raw.Stored? && c.raw.session.state != ExpectedState(c.workers[w].before)))
  {
    EveryRunIsSafe(db, steps, g);
    var c := Run(db, steps, g);
    if c.raw.Stored? {
      assert SoundEvent(c.trace[|c.trace| - 1], c.db, g);
    }
  }

  /** A save that goes through may replace a session other than the one that its worker read, if only the
      state is the same. In every run it extends the stored history exactly when that history begins the one
      that the worker read, or is already the one that it saves; otherwise it drops entries. */
  lemma SaveExtendsHistoryIff(db: DbState, steps: seq<Step>, g: Setting, w: nat)
    requires DbOk(db, g.universe)
    requires var c := Run(db, steps, g);
             && w in c.workers && c.workers[w].Processed? && c.raw.Stored?
             && UpdateScript(c.raw, ExpectedState(c.workers[w].before), c.workers[w].after).1 == SaveResult.Success
    ensures var c := Run(db, steps, g);
            var stored, after := Path(c.raw.session), Path(c.workers[w].after);
            var read := Path(Opened(g.phone, c.workers[w].before));
            stored <= after <==> stored <= read || stored == after
  {
    hide WellFormed, DbOk, RowConfirmed, Walk, MessageEdge, Run;
    var c := Run(db, steps, g);
    EveryRunIsSafe(db, steps, g);
    var p := c.workers[w];
    assert SoundStage(p, c.db, g);
    WalkOf(p.after, g);
    SameEnding(Path(c.raw.session), Path(Opened(g.phone, p.before)), Path(p.after));
  }

  /** Two paths that end in the same state, and a walk that goes at most two steps beyond the second one:
      no step of a walk stays where it is, so the first path cannot end one step beyond. */
  lemma SameEnding(stored: seq<SessionState>, read: seq<SessionState>, after: seq<SessionState>)
    requires Walk(after) && stored != [] && read != [] && read <= after && |after| <= |read| + 2
    requires stored[|stored| - 1] == read[|read| - 1]
    ensures stored <= after <==> stored <= read || stored == after
  {
    if |after| > |read| {
      assert Edge(after[|read| - 1], after[|read|]);
      assert after[|read|] != after[|read| - 1];
    }
  }

  lemma WalkOf(s: Session, g: Setting)
    requires Good(s, g)
    ensures Walk(Path(s))
  {
  }
}
