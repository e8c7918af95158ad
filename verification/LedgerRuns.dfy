/** Any number of database sessions changing stock at once: row locks, savepoints, commits and
    rollbacks, interleaved step by step. */
module LedgerRuns {
  import opened Text
  import opened Resolver
  import opened Ledger

  /** One stock change, with the row before and after it. `sale` names the sale row that it belongs to,
      if any; `commits` says that its call commits and reads the row again before it answers. */
  datatype Entry = Entry(
    product: Uuid, op: StockOp, sale: Option<nat>, commits: bool, before: Option<Inventory>, after: Inventory)

  datatype SaleRow = SaleRow(id: nat, product: Uuid, quantity: int)

  /** The uncommitted work of a session. A product with an entry in `rows` is locked by it. */
  datatype Work = Work(rows: map<Uuid, Inventory>, log: seq<Entry>, sales: seq<SaleRow>)

  /** Inside a committing call: about to commit, or about to read the row of log entry `at` again. */
  datatype Phase = Free | Committing | Refreshing(at: nat)

  /** A session; `savepoint` is the state that an unfinished record_sale falls back to. */
  datatype Tx = Tx(work: Work, savepoint: Option<Work>, phase: Phase)

  /** The row that a committing call read again, when the log had `at` entries. */
  datatype Reading = Reading(at: nat, row: Inventory)

  /** The committed tables, the committed changes in commit order, the second readings by the log entry
      of their call, and the open sessions. */
  datatype State = State(
    inventory: map<Uuid, Inventory>, sales: seq<SaleRow>, log: seq<Entry>,
    readings: map<nat, Reading>, txs: map<nat, Tx>)

  /** `Change` is add_stock, deduct_stock or update_threshold; with `commits` its session goes on with
      `Commit` and `Refresh`. An update_threshold that finds its value already there writes nothing and
      makes no step. */
  datatype Step =
    | Begin(t: nat)
    | Change(t: nat, product: Uuid, op: StockOp, commits: bool)
    | DeductForSale(t: nat, product: Uuid, quantity: int, sale: nat)
    | InsertSale(t: nat)
    | RollbackToSavepoint(t: nat)
    | Commit(t: nat)
    | Refresh(t: nat)
    | Rollback(t: nat)

  const NO_WORK := Work(map[], [], [])

  /** What a locking read sees: the session's own row, or else the committed one. */
  function Visible(s: State, t: nat, p: Uuid): Option<Inventory>
    requires t in s.txs
  {
    if p in s.txs[t].work.rows then Some(s.txs[t].work.rows[p]) else Stocked(s.inventory, p)
  }

  predicate Lockable(s: State, t: nat, p: Uuid) {
    forall u :: u in s.txs && u != t ==> p !in s.txs[u].work.rows
  }

  function WithChange(w: Work, e: Entry): Work {
    w.(rows := w.rows[e.product := e.after], log := w.log + [e])
  }

  function WithTx(s: State, t: nat, tx: Tx): State {
    s.(txs := s.txs[t := tx])
  }

  /** A stock change by session `t`, or `None` where a lock is in the way or the call raises. */
  function Changed(s: State, t: nat, p: Uuid, op: StockOp, sale: Option<nat>, commits: bool): Option<Work>
    requires t in s.txs
  {
    var tx, before := s.txs[t], Visible(s, t, p);
    var r := ApplyToRow(before, op);
    if tx.savepoint.Some? || !tx.phase.Free? || !Lockable(s, t, p) || r.Rejected? then None
    else Some(WithChange(tx.work, Entry(p, op, sale, commits, before, r.row)))
  }

  /** The next state, or `None` where the step is not possible: the row is locked by another
      session, the call raises, or there is no such session. A call that raises leaves the session
      as it was, and RollbackToSavepoint or Rollback may follow. */
  function Next(s: State, step: Step): Option<State> {
    if step.Begin? then
      if step.t in s.txs then None else Some(WithTx(s, step.t, Tx(NO_WORK, None, Free)))
    else if step.t !in s.txs then None
    else
      var t, tx := step.t, s.txs[step.t];
      match step
      case Change(_, p, op, commits) =>
        var work := Changed(s, t, p, op, None, commits);
        if work.None? then None
        else Some(WithTx(s, t, Tx(work.value, None, if commits then Committing else Free)))
      case DeductForSale(_, p, q, sale) =>
        var work := Changed(s, t, p, Deduct(q), Some(sale), false);
        if work.None? then None else Some(WithTx(s, t, Tx(work.value, Some(tx.work), Free)))
      case InsertSale(_) =>
        if tx.savepoint.None? || tx.work.log == [] || Last(tx.work.log).sale.None?
           || !Last(tx.work.log).op.Deduct? || Last(tx.work.log).op.quantity <= 0 then None
        else
          var e := Last(tx.work.log);
          var row := SaleRow(e.sale.value, e.product, e.op.quantity);
          Some(WithTx(s, t, Tx(tx.work.(sales := tx.work.sales + [row]), None, Free)))
      case RollbackToSavepoint(_) =>
        if tx.savepoint.None? then None else Some(WithTx(s, t, Tx(tx.savepoint.value, None, Free)))
      case Commit(_) =>
        if tx.savepoint.Some? || tx.phase.Refreshing? then None
        else
          var log := s.log + tx.work.log;
          var txs :=
            if tx.phase.Committing? && log != [] then s.txs[t := Tx(NO_WORK, None, Refreshing(|log| - 1))]
            else s.txs - {t};
          Some(State(s.inventory + tx.work.rows, s.sales + tx.work.sales, log, s.readings, txs))
      case Refresh(_) =>
        if !tx.phase.Refreshing? || tx.phase.at >= |s.log| then None
        else
          var seen := Stocked(s.inventory, s.log[tx.phase.at].product);
          if seen.None? then None
          else
            var reading := Reading(|s.log|, seen.value);
            Some(WithTx(s, t, Tx(NO_WORK, None, Free)).(readings := s.readings[tx.phase.at := reading]))
      case Rollback(_) => Some(s.(txs := s.txs - {t}))
  }

  function Last<T>(s: seq<T>): T
    requires s != []
  {
    s[|s| - 1]
  }

  const EMPTY := State(map[], [], [], map[], map[])

  /** The state after a run, skipping the steps that are not possible when their turn comes. */
  function Run(steps: seq<Step>): State {
    if steps == [] then EMPTY
    else
      var before := Run(steps[..|steps| - 1]);
      var next := Next(before, Last(steps));
      if next.Some? then next.value else before
  }

  // ------------------------------------------------------------- invariants

  function OpsOn(log: seq<Entry>, p: Uuid): seq<StockOp> {
    if log == [] then []
    else OpsOn(log[..|log| - 1], p) + (if Last(log).product == p then [Last(log).op] else [])
  }

  /** The change took the row from above its threshold to low stock: what its call should answer. */
  predicate Crossed(e: Entry) {
    Answer(e.before, e.op, e.after)
  }

  /** The crossings of one product, in the order of the log. */
  function CrossingsOn(log: seq<Entry>, p: Uuid): seq<bool> {
    if log == [] then []
    else CrossingsOn(log[..|log| - 1], p) + (if Last(log).product == p then [Crossed(Last(log))] else [])
  }

  /** The sale rows that the deductions of a log belong to. */
  function SalesIn(log: seq<Entry>): seq<SaleRow> {
    if log == [] then []
    else
      var e := Last(log);
      SalesIn(log[..|log| - 1])
      + (if e.sale.Some? && e.op.Deduct? then [SaleRow(e.sale.value, e.product, e.op.quantity)] else [])
  }

  /** Replaying the log serially, starting from the committed rows, gives the rows, and every change
      crosses the threshold exactly where it did. */
  ghost predicate Replays(base: map<Uuid, Inventory>, w: Work) {
    forall p ::
      && Accepts(Stocked(base, p), OpsOn(w.log, p))
      && AlertFlags(Stocked(base, p), OpsOn(w.log, p)) == CrossingsOn(w.log, p)
      && (p in w.rows ==> AfterOps(Stocked(base, p), OpsOn(w.log, p)) == Some(w.rows[p]))
      && (p !in w.rows ==> OpsOn(w.log, p) == [])
  }

  ghost predicate LeadsTo(row: Option<Inventory>, ops: seq<StockOp>, to: Option<Inventory>) {
    Accepts(row, ops) && AfterOps(row, ops) == to
  }

  /** Entry `i` of a log records the rows that the log itself gives. */
  ghost predicate EntryHolds(base: map<Uuid, Inventory>, log: seq<Entry>, i: nat)
    requires i < |log|
  {
    var p := log[i].product;
    && LeadsTo(Stocked(base, p), OpsOn(log[..i], p), log[i].before)
    && LeadsTo(Stocked(base, p), OpsOn(log[..i + 1], p), Some(log[i].after))
  }

  ghost predicate EntriesHold(base: map<Uuid, Inventory>, log: seq<Entry>) {
    forall i :: 0 <= i < |log| ==> EntryHolds(base, log, i)
  }

  ghost predicate SoundWork(base: map<Uuid, Inventory>, w: Work) {
    Replays(base, w) && EntriesHold(base, w.log)
  }

  ghost predicate SoundTx(base: map<Uuid, Inventory>, tx: Tx) {
    && SoundWork(base, tx.work)
    && (tx.phase.Committing? ==> tx.work.log != [] && Last(tx.work.log).commits)
    && (tx.phase.Refreshing? ==> tx.work == NO_WORK)
    && match tx.savepoint
       case None => SalesIn(tx.work.log) == tx.work.sales
       case Some(before) =>
         && tx.phase.Free?
         && SoundWork(base, before) && SalesIn(before.log) == before.sales
         && before.sales == tx.work.sales && before.rows.Keys <= tx.work.rows.Keys
         && tx.work.log != [] && before.log == tx.work.log[..|tx.work.log| - 1]
  }

  /** A second reading of entry `i` saw the row that the log gave at that moment. */
  ghost predicate ReadingHolds(log: seq<Entry>, i: nat, r: Reading) {
    && i < r.at <= |log| && log[i].commits
    && LeadsTo(None, OpsOn(log[..r.at], log[i].product), Some(r.row))
  }

  /** Each awaited reading belongs to one session. */
  ghost predicate SoundPhases(s: State) {
    && (forall t :: t in s.txs && s.txs[t].phase.Refreshing? ==>
          var at := s.txs[t].phase.at;
          at < |s.log| && s.log[at].commits && at !in s.readings)
    && (forall t, u :: t in s.txs && u in s.txs && t != u && s.txs[t].phase.Refreshing? ==>
          s.txs[t].phase != s.txs[u].phase)
  }

  ghost predicate SoundTables(s: State) {
    && SoundWork(map[], Work(s.inventory, s.log, s.sales))
    && SalesIn(s.log) == s.sales
    && (forall t :: t in s.txs ==> SoundTx(s.inventory, s.txs[t]))
    && (forall t, u :: t in s.txs && u in s.txs && t != u ==>
          s.txs[t].work.rows.Keys !! s.txs[u].work.rows.Keys)
  }

  ghost predicate SoundReadings(s: State) {
    forall i :: i in s.readings ==> ReadingHolds(s.log, i, s.readings[i])
  }

  ghost predicate Sound(s: State) {
    SoundTables(s) && SoundReadings(s) && SoundPhases(s)
  }

  lemma {:induction false} OpsOnConcat(log: seq<Entry>, more: seq<Entry>, p: Uuid)
    ensures OpsOn(log + more, p) == OpsOn(log, p) + OpsOn(more, p)
  {
    if more == [] {
      assert log + more == log;
    } else {
      OpsOnConcat(log, more[..|more| - 1], p);
      assert (log + more)[..|log + more| - 1] == log + more[..|more| - 1];
    }
  }

  lemma {:induction false} CrossingsOnConcat(log: seq<Entry>, more: seq<Entry>, p: Uuid)
    ensures CrossingsOn(log + more, p) == CrossingsOn(log, p) + CrossingsOn(more, p)
  {
    if more == [] {
      assert log + more == log;
    } else {
      CrossingsOnConcat(log, more[..|more| - 1], p);
      assert (log + more)[..|log + more| - 1] == log + more[..|more| - 1];
    }
  }

  lemma {:induction false} SalesInConcat(log: seq<Entry>, more: seq<Entry>)
    ensures SalesIn(log + more) == SalesIn(log) + SalesIn(more)
  {
    if more == [] {
      assert log + more == log;
    } else {
      SalesInConcat(log, more[..|more| - 1]);
      assert (log + more)[..|log + more| - 1] == log + more[..|more| - 1];
    }
  }

  lemma ChangeReplays(base: map<Uuid, Inventory>, w: Work, e: Entry)
    requires Replays(base, w)
    requires e.before == if e.product in w.rows then Some(w.rows[e.product]) else Stocked(base, e.product)
    requires ApplyToRow(e.before, e.op).Applied? && ApplyToRow(e.before, e.op).row == e.after
    ensures Replays(base, WithChange(w, e))
  {
    var next := WithChange(w, e);
    assert next.log[..|next.log| - 1] == w.log;
    forall p
      ensures Accepts(Stocked(base, p), OpsOn(next.log, p))
      ensures AlertFlags(Stocked(base, p), OpsOn(next.log, p)) == CrossingsOn(next.log, p)
      ensures p in next.rows ==> AfterOps(Stocked(base, p), OpsOn(next.log, p)) == Some(next.rows[p])
      ensures p !in next.rows ==> OpsOn(next.log, p) == []
    {
      if p == e.product {
        assert AfterOps(Stocked(base, p), OpsOn(w.log, p)) == e.before;
        OneStep(e.before, e.op);
        assert OpsOn(next.log, p) == OpsOn(w.log, p) + [e.op];
        AcceptsSplit(Stocked(base, p), OpsOn(w.log, p), [e.op]);
        FlagsSplit(Stocked(base, p), OpsOn(w.log, p), [e.op]);
        assert AlertFlags(e.before, [e.op]) == [Crossed(e)];
      } else {
        assert OpsOn(next.log, p) == OpsOn(w.log, p) + [] == OpsOn(w.log, p);
        assert CrossingsOn(next.log, p) == CrossingsOn(w.log, p) + [] == CrossingsOn(w.log, p);
      }
    }
  }

  /** The entries recorded so far stay true as the log grows, and so does the new one. */
  lemma ChangeHolds(base: map<Uuid, Inventory>, w: Work, e: Entry)
    requires SoundWork(base, w)
    requires e.before == if e.product in w.rows then Some(w.rows[e.product]) else Stocked(base, e.product)
    requires ApplyToRow(e.before, e.op).Applied? && ApplyToRow(e.before, e.op).row == e.after
    ensures SoundWork(base, WithChange(w, e))
  {
    var next := WithChange(w, e);
    ChangeReplays(base, w, e);
    forall i | 0 <= i < |next.log| ensures EntryHolds(base, next.log, i) {
      assert next.log[..i] == w.log[..i];
      if i < |w.log| {
        assert EntryHolds(base, w.log, i);
        assert next.log[..i + 1] == w.log[..i + 1];
      } else {
        assert w.log[..i] == w.log && next.log[..i + 1] == next.log;
      }
    }
  }

  /** A commit appends the session's changes to the log: the locks have kept every row it changed
      as it was when the session first read it. */
  lemma CommitReplays(base: map<Uuid, Inventory>, log: seq<Entry>, sales: seq<SaleRow>, w: Work)
    requires Replays(map[], Work(base, log, sales)) && Replays(base, w)
    ensures Replays(map[], Work(base + w.rows, log + w.log, sales + w.sales))
  {
    forall p
      ensures Accepts(None, OpsOn(log + w.log, p))
      ensures AlertFlags(None, OpsOn(log + w.log, p)) == CrossingsOn(log + w.log, p)
      ensures p in base + w.rows ==> AfterOps(None, OpsOn(log + w.log, p)) == Some((base + w.rows)[p])
      ensures p !in base + w.rows ==> OpsOn(log + w.log, p) == []
    {
      OpsOnConcat(log, w.log, p);
      CrossingsOnConcat(log, w.log, p);
      AcceptsSplit(None, OpsOn(log, p), OpsOn(w.log, p));
      FlagsSplit(None, OpsOn(log, p), OpsOn(w.log, p));
      assert AfterOps(None, OpsOn(log, p)) == Stocked(base, p);
      assert Stocked(map[], p) == None;
      if p !in w.rows {
        assert OpsOn(log, p) + [] == OpsOn(log, p);
      }
    }
  }

  /** What a log leads to from the committed rows, it leads to after the committed log. */
  lemma LeadsOn(base: map<Uuid, Inventory>, log: seq<Entry>, sales: seq<SaleRow>, more: seq<Entry>, p: Uuid,
                to: Option<Inventory>)
    requires Replays(map[], Work(base, log, sales)) && LeadsTo(Stocked(base, p), OpsOn(more, p), to)
    ensures LeadsTo(None, OpsOn(log + more, p), to)
  {
    OpsOnConcat(log, more, p);
    AcceptsSplit(None, OpsOn(log, p), OpsOn(more, p));
    assert Stocked(map[], p) == None;
    assert AfterOps(None, OpsOn(log, p)) == Stocked(base, p);
  }

  lemma CommitHolds(base: map<Uuid, Inventory>, log: seq<Entry>, sales: seq<SaleRow>, w: Work)
    requires SoundWork(map[], Work(base, log, sales)) && SoundWork(base, w)
    ensures EntriesHold(map[], log + w.log)
  {
    hide Replays, LeadsTo;
    var all := log + w.log;
    forall i | 0 <= i < |all| ensures EntryHolds(map[], all, i) {
      assert Stocked(map[], all[i].product) == None;
      if i < |log| {
        assert EntryHolds(map[], log, i);
        assert all[..i] == log[..i] && all[..i + 1] == log[..i + 1];
      } else {
        var k := i - |log|;
        assert EntryHolds(base, w.log, k);
        assert all[..i] == log + w.log[..k] && all[..i + 1] == log + w.log[..k + 1];
        LeadsOn(base, log, sales, w.log[..k], all[i].product, w.log[k].before);
        LeadsOn(base, log, sales, w.log[..k + 1], all[i].product, Some(w.log[k].after));
      }
    }
  }

  lemma OtherRowsReplay(base: map<Uuid, Inventory>, changed: map<Uuid, Inventory>, w: Work)
    requires Replays(base, w) && changed.Keys !! w.rows.Keys
    ensures Replays(base + changed, w)
  {
    forall p
      ensures Accepts(Stocked(base + changed, p), OpsOn(w.log, p))
      ensures AlertFlags(Stocked(base + changed, p), OpsOn(w.log, p)) == CrossingsOn(w.log, p)
      ensures p in w.rows ==> AfterOps(Stocked(base + changed, p), OpsOn(w.log, p)) == Some(w.rows[p])
      ensures p !in w.rows ==> OpsOn(w.log, p) == []
    {
      if p in w.rows {
        assert Stocked(base + changed, p) == Stocked(base, p);
      }
    }
  }

  lemma {:induction false} OwnOps(log: seq<Entry>, i: nat)
    requires i < |log|
    ensures OpsOn(log, log[i].product) != []
    decreases log
  {
    if i < |log| - 1 {
      OwnOps(log[..|log| - 1], i);
    }
  }

  lemma OtherRowsHold(base: map<Uuid, Inventory>, changed: map<Uuid, Inventory>, w: Work)
    requires SoundWork(base, w) && changed.Keys !! w.rows.Keys
    ensures SoundWork(base + changed, w)
  {
    OtherRowsReplay(base, changed, w);
    forall i | 0 <= i < |w.log| ensures EntryHolds(base + changed, w.log, i) {
      assert EntryHolds(base, w.log, i);
      OwnOps(w.log, i);
      assert w.log[i].product in w.rows;
      assert Stocked(base + changed, w.log[i].product) == Stocked(base, w.log[i].product);
    }
  }

  /** The tables after a commit, whatever becomes of the committing session. */
  lemma CommitKeepsTables(s: State, t: nat, tx: Tx)
    requires SoundTables(s) && t in s.txs && s.txs[t].savepoint.None? && tx.work == NO_WORK && tx.savepoint.None?
    requires !tx.phase.Committing?
    ensures var w := s.txs[t].work;
            var next := State(s.inventory + w.rows, s.sales + w.sales, s.log + w.log, s.readings, s.txs[t := tx]);
            SoundTables(next) && SoundTables(next.(txs := s.txs - {t}))
  {
    hide Replays, EntriesHold;
    var w := s.txs[t].work;
    var next := State(s.inventory + w.rows, s.sales + w.sales, s.log + w.log, s.readings, s.txs[t := tx]);
    CommitReplays(s.inventory, s.log, s.sales, w);
    CommitHolds(s.inventory, s.log, s.sales, w);
    SalesInConcat(s.log, w.log);
    assert SoundTx(s.inventory, s.txs[t]);
    NoWorkIsSound(next.inventory);
    forall u | u in next.txs ensures SoundTx(next.inventory, next.txs[u]) {
      if u != t {
        OtherRowsHold(s.inventory, w.rows, s.txs[u].work);
        if s.txs[u].savepoint.Some? {
          OtherRowsHold(s.inventory, w.rows, s.txs[u].savepoint.value);
        }
      }
    }
    forall u | u in s.txs - {t} ensures SoundTx(next.inventory, s.txs[u]) {
      assert next.txs[u] == s.txs[u];
    }
  }

  lemma NoWorkIsSound(base: map<Uuid, Inventory>)
    ensures SoundWork(base, NO_WORK)
  {
    assert forall p :: Accepts(Stocked(base, p), OpsOn([], p));
  }

  lemma ReadingsOutlive(log: seq<Entry>, more: seq<Entry>, i: nat, r: Reading)
    requires ReadingHolds(log, i, r)
    ensures ReadingHolds(log + more, i, r)
  {
    assert (log + more)[..r.at] == log[..r.at];
  }

  lemma CommitKeepsSound(s: State, t: nat)
    requires Sound(s) && Next(s, Commit(t)).Some?
    ensures Sound(Next(s, Commit(t)).value)
  {
    hide SoundTx, SoundWork, ReadingHolds;
    var next, w := Next(s, Commit(t)).value, s.txs[t].work;
    CommittedCallIsLast(s, t);
    CommitKeepsTables(s, t, if t in next.txs then next.txs[t] else Tx(NO_WORK, None, Free));
    forall i | i in next.readings ensures ReadingHolds(next.log, i, next.readings[i]) {
      ReadingsOutlive(s.log, w.log, i, s.readings[i]);
    }
    forall i | i in s.readings ensures i < |s.log| {
      assert ReadingHolds(s.log, i, s.readings[i]);
      ReadingIndex(s.log, i, s.readings[i]);
    }
  }

  lemma ReadingIndex(log: seq<Entry>, i: nat, r: Reading)
    requires ReadingHolds(log, i, r)
    ensures i < |log|
  {
  }

  lemma CommittedCallIsLast(s: State, t: nat)
    requires SoundTables(s) && t in s.txs
    ensures s.txs[t].phase.Committing? ==> s.txs[t].work.log != [] && Last(s.txs[t].work.log).commits
  {
    assert SoundTx(s.inventory, s.txs[t]);
  }

  /** A step inside one session keeps everything, if the session stays sound and locks no row that
      another session holds. */
  lemma SessionKeepsSound(s: State, t: nat, tx: Tx)
    requires Sound(s) && SoundTx(s.inventory, tx) && !tx.phase.Refreshing?
    requires forall u :: u in s.txs && u != t ==> tx.work.rows.Keys !! s.txs[u].work.rows.Keys
    ensures Sound(WithTx(s, t, tx))
  {
    hide SoundTx, SoundWork, ReadingHolds;
  }

  lemma ChangeKeepsSound(s: State, t: nat, p: Uuid, op: StockOp, sale: Option<nat>, commits: bool)
    requires Sound(s) && t in s.txs && Changed(s, t, p, op, sale, commits).Some?
    ensures var w := Changed(s, t, p, op, sale, commits).value;
            && (sale.None? ==> Sound(WithTx(s, t, Tx(w, None, if commits then Committing else Free))))
            && Sound(WithTx(s, t, Tx(w, Some(s.txs[t].work), Free)))
  {
    hide Replays, EntriesHold, SoundReadings, SoundPhases;
    var before := s.txs[t].work;
    var w := Changed(s, t, p, op, sale, commits).value;
    var e := Last(w.log);
    assert SoundTx(s.inventory, s.txs[t]);
    ChangeHolds(s.inventory, before, e);
    assert w.log[..|w.log| - 1] == before.log;
    if sale.None? {
      assert SalesIn(w.log) == SalesIn(before.log) + [] == SalesIn(before.log);
      SessionKeepsSound(s, t, Tx(w, None, if commits then Committing else Free));
    }
    SessionKeepsSound(s, t, Tx(w, Some(before), Free));
  }

  /** What is committed is what the log gives. */
  lemma CommittedRow(s: State, p: Uuid)
    requires SoundTables(s)
    ensures LeadsTo(None, OpsOn(s.log, p), Stocked(s.inventory, p))
  {
    assert Stocked(map[], p) == None;
  }

  /** A second reading sees the committed row, which is the one that the log gives. */
  lemma RefreshKeepsSound(s: State, t: nat)
    requires Sound(s) && Next(s, Refresh(t)).Some?
    ensures Sound(Next(s, Refresh(t)).value)
  {
    hide SoundTx, SoundWork, LeadsTo, SalesIn, OpsOn;
    var at := s.txs[t].phase.at;
    CommittedRow(s, s.log[at].product);
    assert s.log[..|s.log|] == s.log;
    IdleIsSound(s, t);
    NewReading(s, at, Next(s, Refresh(t)).value);
  }

  lemma NewReading(s: State, at: nat, next: State)
    requires SoundReadings(s) && at < |s.log| && s.log[at].commits && next.log == s.log
    requires Stocked(s.inventory, s.log[at].product).Some?
    requires LeadsTo(None, OpsOn(s.log[..|s.log|], s.log[at].product), Stocked(s.inventory, s.log[at].product))
    requires next.readings
             == s.readings[at := Reading(|s.log|, Stocked(s.inventory, s.log[at].product).value)]
    ensures SoundReadings(next)
  {
    hide LeadsTo;
  }

  lemma IdleIsSound(s: State, t: nat)
    requires SoundTables(s) && t in s.txs
    ensures SoundTables(WithTx(s, t, Tx(NO_WORK, None, Free)))
  {
    hide Replays, EntriesHold;
    NoWorkIsSound(s.inventory);
  }

  lemma InsertIsSound(base: map<Uuid, Inventory>, w: Work, sales: seq<SaleRow>)
    requires SoundWork(base, w)
    ensures SoundWork(base, w.(sales := sales))
  {
  }

  lemma StepKeepsSound(s: State, step: Step)
    requires Sound(s) && Next(s, step).Some?
    ensures Sound(Next(s, step).value)
  {
    hide Replays, EntriesHold, ReadingHolds;
    match step {
      case Begin(t) =>
        NoWorkIsSound(s.inventory);
        SessionKeepsSound(s, t, Tx(NO_WORK, None, Free));
      case Change(t, p, op, commits) =>
        ChangeKeepsSound(s, t, p, op, None, commits);
      case DeductForSale(t, p, q, sale) =>
        ChangeKeepsSound(s, t, p, Deduct(q), Some(sale), false);
      case InsertSale(t) =>
        assert SoundTx(s.inventory, s.txs[t]);
        InsertIsSound(s.inventory, s.txs[t].work, Next(s, step).value.txs[t].work.sales);
        SessionKeepsSound(s, t, Next(s, step).value.txs[t]);
      case RollbackToSavepoint(t) =>
        assert SoundTx(s.inventory, s.txs[t]);
        SessionKeepsSound(s, t, Next(s, step).value.txs[t]);
      case Commit(t) =>
        CommitKeepsSound(s, t);
      case Refresh(t) =>
        RefreshKeepsSound(s, t);
      case Rollback(t) =>
    }
  }

  lemma {:induction false} RunIsSound(steps: seq<Step>)
    ensures Sound(Run(steps))
  {
    if steps == [] {
      assert forall p :: Accepts(Stocked(map[], p), OpsOn([], p));
    } else {
      var before := Run(steps[..|steps| - 1]);
      RunIsSound(steps[..|steps| - 1]);
      if Next(before, Last(steps)).Some? {
        StepKeepsSound(before, Last(steps));
      }
    }
  }

  // ------------------------------------------------------------ conservation

  function Restocked(log: seq<Entry>, p: Uuid): int {
    if log == [] then 0
    else Restocked(log[..|log| - 1], p)
         + (if Last(log).product == p && Last(log).op.Restock? then Last(log).op.quantity else 0)
  }

  /** Deductions made directly, outside a sale. */
  function DeductedDirectly(log: seq<Entry>, p: Uuid): int {
    if log == [] then 0
    else DeductedDirectly(log[..|log| - 1], p)
         + (if Last(log).product == p && Last(log).op.Deduct? && Last(log).sale.None?
            then Last(log).op.quantity else 0)
  }

  function UnitsSold(sales: seq<SaleRow>, p: Uuid): int {
    if sales == [] then 0
    else UnitsSold(sales[..|sales| - 1], p) + (if Last(sales).product == p then Last(sales).quantity else 0)
  }

  lemma {:induction false} LogBalance(log: seq<Entry>, p: Uuid)
    requires Accepts(None, OpsOn(log, p))
    ensures var row := AfterOps(None, OpsOn(log, p));
            var quantity := if row.Some? then row.value.quantity else 0;
            && quantity == Restocked(log, p) - UnitsSold(SalesIn(log), p) - DeductedDirectly(log, p)
            && quantity >= 0
  {
    if log != [] {
      var rest, e := log[..|log| - 1], Last(log);
      if e.product == p {
        AcceptsSplit(None, OpsOn(rest, p), [e.op]);
      } else {
        assert OpsOn(log, p) == OpsOn(rest, p) + [] == OpsOn(rest, p);
      }
      LogBalance(rest, p);
      if e.sale.Some? && e.op.Deduct? {
        var sales := SalesIn(log);
        assert sales[..|sales| - 1] == SalesIn(rest);
      } else {
        assert SalesIn(log) == SalesIn(rest) + [] == SalesIn(rest);
      }
    }
  }

  /** Under any interleaving, a product's committed quantity is what was added, less the units in
      the sales table, less the direct deductions; it is never negative; and the sales table holds
      exactly the sales whose deduction is committed, in the order of commitment. */
  lemma StockIsConserved(steps: seq<Step>, p: Uuid)
    ensures var s := Run(steps);
            var quantity := if p in s.inventory then s.inventory[p].quantity else 0;
            && quantity == Restocked(s.log, p) - UnitsSold(s.sales, p) - DeductedDirectly(s.log, p)
            && quantity >= 0
            && s.sales == SalesIn(s.log)
  {
    RunIsSound(steps);
    var s := Run(steps);
    assert Stocked(map[], p) == None;
    LogBalance(s.log, p);
    assert AfterOps(None, OpsOn(s.log, p)) == Stocked(s.inventory, p);
  }

  /** The threshold that a log leaves: the last one set, or the default. */
  function LastThreshold(log: seq<Entry>, p: Uuid): int {
    if log == [] then 5
    else if Last(log).product == p && Last(log).op.SetThreshold? then Last(log).op.threshold
    else LastThreshold(log[..|log| - 1], p)
  }

  lemma {:induction false} LogThreshold(log: seq<Entry>, p: Uuid)
    requires Accepts(None, OpsOn(log, p))
    ensures var row := AfterOps(None, OpsOn(log, p));
            LastThreshold(log, p) == if row.Some? then row.value.threshold else 5
  {
    if log != [] {
      var rest, e := log[..|log| - 1], Last(log);
      if e.product == p {
        AcceptsSplit(None, OpsOn(rest, p), [e.op]);
        OneStep(AfterOps(None, OpsOn(rest, p)), e.op);
      } else {
        assert OpsOn(log, p) == OpsOn(rest, p) + [] == OpsOn(rest, p);
      }
      LogThreshold(rest, p);
    }
  }

  /** Under any interleaving, a product's committed threshold is the last one that a committed call set, or
      the default: no restock, deduction or sale touches it. */
  lemma ThresholdIsLastSet(steps: seq<Step>, p: Uuid)
    ensures var s := Run(steps);
            p in s.inventory ==> s.inventory[p].threshold == LastThreshold(s.log, p)
  {
    RunIsSound(steps);
    var s := Run(steps);
    assert Stocked(map[], p) == None;
    LogThreshold(s.log, p);
    assert AfterOps(None, OpsOn(s.log, p)) == Stocked(s.inventory, p);
  }

  /** Interleaved runs refine serial ones: each stock row, and each crossing of a threshold, is what the
      service calls in the committed log give one after the other, every one of them succeeding. */
  lemma RunsAreSerializable(steps: seq<Step>, p: Uuid)
    ensures var s := Run(steps);
            && Accepts(None, OpsOn(s.log, p))
            && AfterOps(None, OpsOn(s.log, p)) == Stocked(s.inventory, p)
            && AlertFlags(None, OpsOn(s.log, p)) == CrossingsOn(s.log, p)
            && forall k :: 0 <= k < |CrossingsOn(s.log, p)| ==>
                 k < |OpsOn(s.log, p)| && (CrossingsOn(s.log, p)[k] <==> AlertAt(None, OpsOn(s.log, p), k))
  {
    RunIsSound(steps);
    assert Stocked(map[], p) == None;
    var ops := OpsOn(Run(steps).log, p);
    forall k: nat | k < |ops| ensures AlertFlags(None, ops)[k] == AlertAt(None, ops, k) {
      FlagsAreAlerts(None, ops, k);
    }
  }
}
