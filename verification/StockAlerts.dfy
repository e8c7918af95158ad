/** What the stock calls answer about low stock when sessions interleave. A deduction inside an outer
    transaction answers from the row it holds locked; one that commits answers from the row it reads
    after its commit, when the lock is gone (app/services/inventory_service.py). */
module StockAlerts {
  import opened Text
  import opened Resolver
  import opened Ledger
  import opened LedgerRuns

  /** What the call of committed entry `i` answered, unless it has yet to read its row again. */
  function Answered(s: State, i: nat): Option<bool>
    requires i < |s.log|
  {
    var e := s.log[i];
    if !e.commits then Some(Answer(e.before, e.op, e.after))
    else if i in s.readings then Some(Answer(e.before, e.op, s.readings[i].row))
    else None
  }

  lemma OneMoreOp(log: seq<Entry>, i: nat)
    requires i < |log|
    ensures forall p :: OpsOn(log[..i + 1], p) == OpsOn(log[..i], p) + if log[i].product == p then [log[i].op] else []
    ensures forall p ::
      CrossingsOn(log[..i + 1], p) == CrossingsOn(log[..i], p) + if log[i].product == p then [Crossed(log[i])] else []
  {
    assert log[..i + 1][..i] == log[..i] && Last(log[..i + 1]) == log[i];
  }

  /** A recorded change is a call that succeeded on the row before it. */
  lemma EntryApplies(log: seq<Entry>, i: nat)
    requires i < |log| && EntryHolds(map[], log, i)
    ensures ApplyToRow(log[i].before, log[i].op).Applied?
    ensures ApplyToRow(log[i].before, log[i].op).row == log[i].after
  {
    var e := log[i];
    OneMoreOp(log, i);
    assert Stocked(map[], e.product) == None;
    AcceptsSplit(None, OpsOn(log[..i], e.product), [e.op]);
    OneStep(e.before, e.op);
  }

  /** Every answer compares two committed rows: the one before the change, and one after it. For a call
      inside an outer transaction the second is the row that the change itself left; for a committing
      call it is the row after the first `n` changes, whoever made the later ones. */
  lemma AnswersReadCommittedRows(steps: seq<Step>, i: nat) returns (n: nat, seen: Inventory)
    requires i < |Run(steps).log| && Answered(Run(steps), i).Some?
    ensures var s := Run(steps);
            var e := s.log[i];
            && i < n <= |s.log| && (!e.commits ==> n == i + 1)
            && LeadsTo(None, OpsOn(s.log[..i], e.product), e.before)
            && LeadsTo(None, OpsOn(s.log[..i + 1], e.product), Some(e.after))
            && LeadsTo(None, OpsOn(s.log[..n], e.product), Some(seen))
            && Answered(s, i) == Some(Answer(e.before, e.op, seen))
  {
    hide LeadsTo;
    var s := Run(steps);
    var e := s.log[i];
    RunIsSound(steps);
    assert EntryHolds(map[], s.log, i) && Stocked(map[], e.product) == None;
    if e.commits {
      assert ReadingHolds(s.log, i, s.readings[i]);
      n, seen := s.readings[i].at, s.readings[i].row;
    } else {
      n, seen := i + 1, e.after;
    }
  }

  /** An answer is the one that the same calls, made one after the other, would give: always for a
      deduction inside an outer transaction, as sales make it; and for a committing deduction of a row
      that was not low exactly when the row it read again is as low as the row it committed. */
  lemma AnswerIsSerialIff(steps: seq<Step>, i: nat)
    requires i < |Run(steps).log|
    ensures var s := Run(steps);
            var e := s.log[i];
            && (e.op.Deduct? ==> e.before.Some?)
            && (!e.commits ==> Answered(s, i) == Some(Crossed(e)))
            && (e.commits && i in s.readings && e.op.Deduct? ==>
                  (Answered(s, i) == Some(Crossed(e))
                   <==> IsLow(e.before.value) || IsLow(s.readings[i].row) == IsLow(e.after)))
            && (e.commits && i in s.readings && !e.op.Deduct? ==> Answered(s, i) == Some(Crossed(e)))
  {
    RunIsSound(steps);
    EntryApplies(Run(steps).log, i);
  }

  lemma {:induction false} UntouchedRow(log: seq<Entry>, p: Uuid, m: nat, n: nat)
    requires m <= n <= |log| && forall k :: m <= k < n ==> log[k].product != p
    ensures OpsOn(log[..n], p) == OpsOn(log[..m], p)
    decreases n
  {
    if m < n {
      UntouchedRow(log, p, m, n - 1);
      OneMoreOp(log, n - 1);
      assert OpsOn(log[..n - 1], p) + [] == OpsOn(log[..n - 1], p);
    }
  }

  /** Nobody commits a change of the product between a call's own commit and its second reading. */
  predicate Undisturbed(s: State, i: nat)
    requires i < |s.log|
  {
    && i in s.readings
    && forall k :: i < k < s.readings[i].at && k < |s.log| ==> s.log[k].product != s.log[i].product
  }

  /** In particular when nothing has disturbed it. */
  lemma UndisturbedAnswerIsSerial(steps: seq<Step>, i: nat)
    requires i < |Run(steps).log| && Run(steps).log[i].commits && Undisturbed(Run(steps), i)
    ensures Answered(Run(steps), i) == Some(Crossed(Run(steps).log[i]))
  {
    var s := Run(steps);
    RunIsSound(steps);
    assert EntryHolds(map[], s.log, i) && ReadingHolds(s.log, i, s.readings[i]);
    assert Stocked(map[], s.log[i].product) == None;
    UntouchedRow(s.log, s.log[i].product, i + 1, s.readings[i].at);
  }

  // ---------------------------------------------------------------- counting

  function CountTrue(flags: seq<bool>): nat {
    if flags == [] then 0 else CountTrue(flags[..|flags| - 1]) + if flags[|flags| - 1] then 1 else 0
  }

  lemma {:induction false} CountConcat(a: seq<bool>, b: seq<bool>)
    ensures CountTrue(a + b) == CountTrue(a) + CountTrue(b)
  {
    if b == [] {
      assert a + b == a;
    } else {
      CountConcat(a, b[..|b| - 1]);
      assert (a + b)[..|a + b| - 1] == a + b[..|b| - 1];
    }
  }

  lemma {:induction false} AlertsAreCounted(row: Option<Inventory>, ops: seq<StockOp>)
    requires Accepts(row, ops)
    ensures CountTrue(AlertFlags(row, ops)) == Alerts(row, ops)
    decreases ops
  {
    if ops != [] {
      var first := ApplyToRow(row, ops[0]);
      AlertsAreCounted(Some(first.row), ops[1..]);
      CountConcat([first.alert], AlertFlags(Some(first.row), ops[1..]));
      assert [first.alert][..0] == [];
    }
  }

  /** The calls on a product among the first `n` committed ones that answered `entered_low_stock`. */
  function AlertsGiven(s: State, n: nat, p: Uuid): nat
    requires n <= |s.log|
  {
    if n == 0 then 0
    else AlertsGiven(s, n - 1, p) + if s.log[n - 1].product == p && Answered(s, n - 1) == Some(true) then 1 else 0
  }

  /** An alert without a crossing. */
  predicate Spurious(s: State, i: nat)
    requires i < |s.log|
  {
    Answered(s, i) == Some(true) && !Crossed(s.log[i])
  }

  /** A crossing without an alert. */
  predicate Missed(s: State, i: nat)
    requires i < |s.log|
  {
    Answered(s, i) != Some(true) && Crossed(s.log[i])
  }

  function SpuriousCount(s: State, n: nat, p: Uuid): nat
    requires n <= |s.log|
  {
    if n == 0 then 0
    else SpuriousCount(s, n - 1, p) + if s.log[n - 1].product == p && Spurious(s, n - 1) then 1 else 0
  }

  function MissedCount(s: State, n: nat, p: Uuid): nat
    requires n <= |s.log|
  {
    if n == 0 then 0
    else MissedCount(s, n - 1, p) + if s.log[n - 1].product == p && Missed(s, n - 1) then 1 else 0
  }

  lemma OneMoreCrossing(log: seq<Entry>, i: nat, p: Uuid)
    requires i < |log|
    ensures CountTrue(CrossingsOn(log[..i + 1], p))
            == CountTrue(CrossingsOn(log[..i], p)) + if log[i].product == p && Crossed(log[i]) then 1 else 0
  {
    hide Crossed;
    OneMoreOp(log, i);
    if log[i].product == p {
      CountConcat(CrossingsOn(log[..i], p), [Crossed(log[i])]);
      assert [Crossed(log[i])][..0] == [];
    } else {
      assert CrossingsOn(log[..i], p) + [] == CrossingsOn(log[..i], p);
    }
  }

  lemma {:induction false} AlertsAndCrossings(s: State, n: nat, p: Uuid)
    requires n <= |s.log|
    ensures AlertsGiven(s, n, p) + MissedCount(s, n, p)
            == CountTrue(CrossingsOn(s.log[..n], p)) + SpuriousCount(s, n, p)
  {
    hide Crossed, Answered, CrossingsOn;
    if n > 0 {
      AlertsAndCrossings(s, n - 1, p);
      OneMoreCrossing(s.log, n - 1, p);
    } else {
      assert s.log[..0] == [];
      NoCrossings(p);
    }
  }

  lemma NoCrossings(p: Uuid)
    ensures CrossingsOn([], p) == []
  {
  }

  /** Any prefix of the committed log is itself a serial run of the product's calls. */
  lemma PrefixIsSerial(steps: seq<Step>, n: nat, p: Uuid)
    requires n <= |Run(steps).log|
    ensures var log := Run(steps).log[..n];
            Accepts(None, OpsOn(log, p)) && AlertFlags(None, OpsOn(log, p)) == CrossingsOn(log, p)
  {
    var all := Run(steps).log;
    var log, rest := all[..n], all[n..];
    RunsAreSerializable(steps, p);
    assert all == log + rest;
    OpsOnConcat(log, rest, p);
    CrossingsOnConcat(log, rest, p);
    FlagsSplit(None, OpsOn(log, p), OpsOn(rest, p));
    SameLength(log, p);
    assert AlertFlags(None, OpsOn(log, p)) == AlertFlags(None, OpsOn(all, p))[..|OpsOn(log, p)|];
    assert CrossingsOn(log, p) == CrossingsOn(all, p)[..|CrossingsOn(log, p)|];
  }

  lemma {:induction false} SameLength(log: seq<Entry>, p: Uuid)
    ensures |OpsOn(log, p)| == |CrossingsOn(log, p)|
  {
    if log != [] {
      SameLength(log[..|log| - 1], p);
    }
  }

  /** What has to be matched: the change of lowness after `n` committed changes, less the ways into low
      stock that raise no alert, plus the ways out of it. */
  function Expected(log: seq<Entry>, p: Uuid): int
    requires Accepts(None, OpsOn(log, p))
  {
    LowBit(AfterOps(None, OpsOn(log, p))) - Drops(None, OpsOn(log, p)) + Lifts(None, OpsOn(log, p))
  }

  /** While nobody changes the threshold of the product, that is its lowness now less its lowness when it was
      created, plus the restocks that lifted it. */
  lemma ExpectedAtFixedThreshold(log: seq<Entry>, p: Uuid)
    requires Accepts(None, OpsOn(log, p)) && OpsOn(log, p) != [] && FixedThreshold(OpsOn(log, p))
    ensures var ops := OpsOn(log, p);
            var created := ApplyToRow(None, ops[0]);
            && created.Applied?
            && Expected(log, p) == LowBit(AfterOps(None, ops)) - LowBit(Some(created.row)) + Lifts(None, ops)
  {
    var ops := OpsOn(log, p);
    FixedThresholdNeverDrops(ApplyToRow(None, ops[0]).row, ops[1..]);
  }

  /** Over every interleaving, at every point of the committed log: the crossings of a product, and the
      other ways into low stock, less the ways out of it are its lowness. */
  lemma CrossingsBalance(steps: seq<Step>, n: nat, p: Uuid)
    requires n <= |Run(steps).log|
    ensures var log := Run(steps).log[..n];
            && Accepts(None, OpsOn(log, p))
            && CountTrue(CrossingsOn(log, p)) == Expected(log, p)
            && (n == |Run(steps).log| ==> AfterOps(None, OpsOn(log, p)) == Stocked(Run(steps).inventory, p))
  {
    var s := Run(steps);
    var log := s.log[..n];
    PrefixIsSerial(steps, n, p);
    AlertsAreCounted(None, OpsOn(log, p));
    AlertBalance(None, OpsOn(log, p));
    if n == |s.log| {
      assert log == s.log;
      RunsAreSerializable(steps, p);
    }
  }

  /** The alerts that were given by then match it as well. */
  ghost predicate Balanced(s: State, n: nat, p: Uuid)
    requires n <= |s.log|
  {
    Accepts(None, OpsOn(s.log[..n], p)) && AlertsGiven(s, n, p) == Expected(s.log[..n], p)
  }

  lemma AlertsBalanceIff(steps: seq<Step>, n: nat, p: Uuid)
    requires n <= |Run(steps).log|
    ensures Balanced(Run(steps), n, p) <==> SpuriousCount(Run(steps), n, p) == MissedCount(Run(steps), n, p)
  {
    CrossingsBalance(steps, n, p);
    AlertsAndCrossings(Run(steps), n, p);
  }

  // ------------------------------------------------------- when alerts balance

  /** The row that a committing deduction of a row above its threshold reads again is as low as the one it
      committed; if it is not read again, the one it committed is not low. */
  predicate ReadsAlike(s: State, i: nat)
    requires i < |s.log|
  {
    var e := s.log[i];
    e.commits && e.op.Deduct? && e.before.Some? && !IsLow(e.before.value) ==>
      if i in s.readings then IsLow(s.readings[i].row) == IsLow(e.after) else !IsLow(e.after)
  }

  ghost predicate AllReadAlike(s: State, p: Uuid) {
    forall i :: 0 <= i < |s.log| && s.log[i].product == p ==> ReadsAlike(s, i)
  }

  lemma ReadsAlikeIff(steps: seq<Step>, i: nat)
    requires i < |Run(steps).log|
    ensures ReadsAlike(Run(steps), i) <==> !Spurious(Run(steps), i) && !Missed(Run(steps), i)
  {
    AnswerIsSerialIff(steps, i);
  }

  lemma {:induction false} NothingWrong(s: State, n: nat, p: Uuid)
    requires n <= |s.log|
    requires forall i :: 0 <= i < n && s.log[i].product == p ==> !Spurious(s, i) && !Missed(s, i)
    ensures SpuriousCount(s, n, p) == 0 && MissedCount(s, n, p) == 0
  {
    hide Spurious, Missed;
    if n > 0 {
      NothingWrong(s, n - 1, p);
    }
  }

  /** The alerts of a product balance at every point of the committed log exactly when every committing
      deduction of it reads a row as low as the one that it committed. */
  lemma AlertsBalanceThroughoutIff(steps: seq<Step>, p: Uuid)
    ensures var s := Run(steps);
            (forall n: nat :: n <= |s.log| ==> Balanced(s, n, p)) <==> AllReadAlike(s, p)
  {
    hide Balanced, Spurious, Missed, ReadsAlike;
    var s := Run(steps);
    if AllReadAlike(s, p) {
      forall n: nat | n <= |s.log| ensures Balanced(s, n, p) {
        AlertsBalance(steps, n, p);
      }
    }
    if forall n: nat :: n <= |s.log| ==> Balanced(s, n, p) {
      forall i | 0 <= i < |s.log| && s.log[i].product == p ensures ReadsAlike(s, i) {
        assert Balanced(s, i, p) && Balanced(s, i + 1, p);
        AlertsBalanceIff(steps, i, p);
        AlertsBalanceIff(steps, i + 1, p);
        NotBoth(s, i);
        ReadsAlikeIff(steps, i);
      }
    }
  }

  lemma NotBoth(s: State, i: nat)
    requires i < |s.log|
    ensures !(Spurious(s, i) && Missed(s, i))
  {
  }

  /** So they balance, at any point, in every run whose readings are alike. */
  lemma AlertsBalance(steps: seq<Step>, n: nat, p: Uuid)
    requires n <= |Run(steps).log| && AllReadAlike(Run(steps), p)
    ensures Balanced(Run(steps), n, p)
  {
    hide Spurious, Missed, ReadsAlike, Balanced;
    var s := Run(steps);
    forall i | 0 <= i < n && s.log[i].product == p ensures !Spurious(s, i) && !Missed(s, i) {
      ReadsAlikeIff(steps, i);
    }
    NothingWrong(s, n, p);
    AlertsBalanceIff(steps, n, p);
  }

  /** No deduction of the product commits on its own: all of them belong to outer transactions. */
  predicate DeductedInTransactions(log: seq<Entry>, p: Uuid) {
    forall i :: 0 <= i < |log| && log[i].product == p && log[i].op.Deduct? ==> !log[i].commits
  }

  /** A product that only sales take from has its alerts in balance, whoever sells it. */
  lemma SaleAlertsBalance(steps: seq<Step>, n: nat, p: Uuid)
    requires n <= |Run(steps).log| && DeductedInTransactions(Run(steps).log, p)
    ensures Balanced(Run(steps), n, p)
  {
    AlertsBalance(steps, n, p);
  }

  /** And so has one whose committing deductions have all read their row again undisturbed. */
  lemma UndisturbedAlertsBalance(steps: seq<Step>, n: nat, p: Uuid)
    requires n <= |Run(steps).log|
    requires var s := Run(steps);
             forall i :: 0 <= i < |s.log| && s.log[i].product == p && s.log[i].commits && s.log[i].op.Deduct? ==>
               Undisturbed(s, i)
    ensures Balanced(Run(steps), n, p)
  {
    hide Undisturbed, Balanced;
    var s := Run(steps);
    forall i | 0 <= i < |s.log| && s.log[i].product == p ensures ReadsAlike(s, i) {
      if s.log[i].commits && s.log[i].op.Deduct? {
        UndisturbedAnswerIsSerial(steps, i);
        ReadsAlikeIff(steps, i);
      }
    }
    AlertsBalance(steps, n, p);
  }

  // ------------------------------------------------------------- alternation

  /** Entry `k` took its product from low stock to above the threshold. */
  predicate Lifted(e: Entry) {
    e.before.Some? && IsLow(e.before.value) && !IsLow(e.after)
  }

  lemma {:induction false} LiftInLog(log: seq<Entry>, p: Uuid, row: Inventory, m: nat, j: nat) returns (k: nat)
    requires EntriesHold(map[], log) && m <= j < |log| && log[j].product == p
    requires LeadsTo(None, OpsOn(log[..m], p), Some(row)) && IsLow(row)
    requires log[j].before.Some? && !IsLow(log[j].before.value)
    ensures m <= k < j && log[k].product == p && Lifted(log[k])
    decreases j - m
  {
    assert EntryHolds(map[], log, m) && EntryHolds(map[], log, j) && Stocked(map[], p) == None;
    assert m != j;
    if log[m].product != p {
      OneMoreOp(log, m);
      assert OpsOn(log[..m], p) + [] == OpsOn(log[..m], p);
      k := LiftInLog(log, p, row, m + 1, j);
    } else if IsLow(log[m].after) {
      k := LiftInLog(log, p, log[m].after, m + 1, j);
    } else {
      k := m;
    }
  }

  /** While no change leaves it low, a row above its threshold stays there. */
  lemma {:induction false} StaysAbove(log: seq<Entry>, p: Uuid, row: Inventory, m: nat, k: nat) returns (r: Inventory)
    requires EntriesHold(map[], log) && m <= k <= |log|
    requires LeadsTo(None, OpsOn(log[..m], p), Some(row)) && !IsLow(row)
    requires forall i :: m <= i < k && log[i].product == p ==> !IsLow(log[i].after)
    ensures LeadsTo(None, OpsOn(log[..k], p), Some(r)) && !IsLow(r)
    decreases k - m
  {
    if m == k {
      r := row;
    } else {
      assert EntryHolds(map[], log, m) && Stocked(map[], p) == None;
      if log[m].product == p {
        r := StaysAbove(log, p, log[m].after, m + 1, k);
      } else {
        OneMoreOp(log, m);
        assert OpsOn(log[..m], p) + [] == OpsOn(log[..m], p);
        r := StaysAbove(log, p, row, m + 1, k);
      }
    }
  }

  /** Strictly between `i` and `j`, some change lifted the product above its threshold. */
  predicate LiftedBetween(log: seq<Entry>, p: Uuid, i: nat, j: nat) {
    exists k :: i < k < j && k < |log| && log[k].product == p && Lifted(log[k])
  }

  /** Change `i` or one after it, before `j`, left the product low. */
  predicate LowBefore(log: seq<Entry>, p: Uuid, i: nat, j: nat) {
    exists k :: i <= k < j && k < |log| && log[k].product == p && IsLow(log[k].after)
  }

  /** Changes `i` and `j` of the product both answered `entered_low_stock`. */
  predicate BothAlert(s: State, p: Uuid, i: nat, j: nat) {
    && i < j < |s.log| && s.log[i].product == p && s.log[j].product == p
    && Answered(s, i) == Some(true) && Answered(s, j) == Some(true)
  }

  /** Between two alerts something lifted the product exactly when the first deduction, or another change
      before the second one, left it low. */
  lemma AlertsAlternateIff(steps: seq<Step>, p: Uuid, i: nat, j: nat)
    requires BothAlert(Run(steps), p, i, j)
    ensures LiftedBetween(Run(steps).log, p, i, j) <==> LowBefore(Run(steps).log, p, i, j)
  {
    hide Answered, Run, Crossed, EntriesHold, LiftedBetween, LowBefore;
    var log := Run(steps).log;
    LogHolds(steps);
    AlertStartsAbove(Run(steps), i);
    AlertStartsAbove(Run(steps), j);
    LowThenLifted(log, p, i, j);
    AboveThenNotLifted(log, p, i, j);
  }

  lemma LogHolds(steps: seq<Step>)
    ensures EntriesHold(map[], Run(steps).log)
  {
    hide Run, EntriesHold;
    RunIsSound(steps);
  }

  lemma LowThenLifted(log: seq<Entry>, p: Uuid, i: nat, j: nat)
    requires EntriesHold(map[], log) && i < j < |log| && log[j].product == p
    requires log[j].before.Some? && !IsLow(log[j].before.value)
    ensures LowBefore(log, p, i, j) ==> LiftedBetween(log, p, i, j)
  {
    hide LeadsTo, OpsOn, Lifted, EntriesHold;
    if LowBefore(log, p, i, j) {
      var m: nat :| i <= m < j && m < |log| && log[m].product == p && IsLow(log[m].after);
      HoldsAt(log, m);
      var k := LiftInLog(log, p, log[m].after, m + 1, j);
      assert Lifted(log[k]);
    }
  }

  lemma HoldsAt(log: seq<Entry>, m: nat)
    requires EntriesHold(map[], log) && m < |log|
    ensures LeadsTo(None, OpsOn(log[..m + 1], log[m].product), Some(log[m].after))
    ensures LeadsTo(None, OpsOn(log[..m], log[m].product), log[m].before)
  {
    hide LeadsTo, OpsOn;
    assert EntryHolds(map[], log, m) && Stocked(map[], log[m].product) == None;
  }

  lemma AboveThenNotLifted(log: seq<Entry>, p: Uuid, i: nat, j: nat)
    requires EntriesHold(map[], log) && i < j < |log| && log[i].product == p
    ensures !LowBefore(log, p, i, j) ==> !LiftedBetween(log, p, i, j)
  {
    hide OpsOn, EntriesHold;
    if !LowBefore(log, p, i, j) && LiftedBetween(log, p, i, j) {
      var k: nat :| i < k < j && k < |log| && log[k].product == p && Lifted(log[k]);
      HoldsAt(log, i);
      HoldsAt(log, k);
      var r := StaysAbove(log, p, log[i].after, i + 1, k);
      assert false;
    }
  }

  lemma AlertStartsAbove(s: State, i: nat)
    requires i < |s.log| && Answered(s, i) == Some(true)
    ensures s.log[i].before.Some? && !IsLow(s.log[i].before.value) && s.log[i].op.Deduct?
  {
  }

  /** With positive quantities, what lifts a product is a restock or a threshold change. */
  lemma LiftsAreNoDeductions(steps: seq<Step>, k: nat)
    requires k < |Run(steps).log| && Lifted(Run(steps).log[k])
    requires Positive(OpsOn(Run(steps).log, Run(steps).log[k].product))
    ensures !Run(steps).log[k].op.Deduct?
  {
    RunIsSound(steps);
    EntryApplies(Run(steps).log, k);
    OpIsListed(Run(steps).log, k);
  }

  /** So whenever the first alert follows a crossing of its own, and whenever the first call had read its
      row by the time of the second change, as every call inside an outer transaction has. */
  lemma AlertsAlternate(steps: seq<Step>, p: Uuid, i: nat, j: nat) returns (k: nat)
    requires BothAlert(Run(steps), p, i, j)
    requires var s := Run(steps);
             !Spurious(s, i) || !s.log[i].commits || s.readings[i].at <= j
    ensures i < k < j && Run(steps).log[k].product == p && Lifted(Run(steps).log[k])
    ensures Positive(OpsOn(Run(steps).log, p)) ==> !Run(steps).log[k].op.Deduct?
  {
    var s := Run(steps);
    if !Spurious(s, i) {
      assert IsLow(s.log[i].after);
      AlertsAlternateIff(steps, p, i, j);
      k :| i < k < j && k < |s.log| && s.log[k].product == p && Lifted(s.log[k]);
    } else {
      RunIsSound(steps);
      AlertStartsAbove(s, j);
      var n, seen := AnswersReadCommittedRows(steps, i);
      assert EntryHolds(map[], s.log, i) && ReadingHolds(s.log, i, s.readings[i]);
      k := LiftInLog(s.log, p, s.readings[i].row, s.readings[i].at, j);
    }
    if Positive(OpsOn(s.log, p)) {
      LiftsAreNoDeductions(steps, k);
    }
  }

  lemma {:induction false} OpIsListed(log: seq<Entry>, k: nat)
    requires k < |log|
    ensures log[k].op in OpsOn(log, log[k].product)
    decreases log
  {
    if k < |log| - 1 {
      OpIsListed(log[..|log| - 1], k);
    }
  }

  // ----------------------------------------------------- where it goes wrong

  lemma OneMoreStep(steps: seq<Step>, step: Step)
    requires Next(Run(steps), step).Some?
    ensures Run(steps + [step]) == Next(Run(steps), step).value
  {
    assert (steps + [step])[..|steps + [step]| - 1] == steps;
  }

  /** No open session holds a row. */
  predicate Unlocked(s: State) {
    forall t :: t in s.txs ==> s.txs[t].work == NO_WORK
  }

  /** The open session of a call that has changed its row and not yet committed. */
  function Calling(e: Entry): Tx {
    Tx(Work(map[e.product := e.after], [e], []), None, Committing)
  }

  function CallEntry(s: State, p: Uuid, op: StockOp): Entry
    requires ApplyToRow(Stocked(s.inventory, p), op).Applied?
  {
    var before := Stocked(s.inventory, p);
    Entry(p, op, None, true, before, ApplyToRow(before, op).row)
  }

  lemma CallChanges(s: State, t: nat, p: Uuid, op: StockOp)
    requires t in s.txs && s.txs[t] == Tx(NO_WORK, None, Free) && Unlocked(s)
    requires ApplyToRow(Stocked(s.inventory, p), op).Applied?
    ensures Next(s, Change(t, p, op, true)) == Some(WithTx(s, t, Calling(CallEntry(s, p, op))))
  {
    var e := CallEntry(s, p, op);
    assert NO_WORK.rows[p := e.after] == map[p := e.after] && NO_WORK.log + [e] == [e];
  }

  lemma CallCommits(s: State, t: nat, e: Entry)
    requires t in s.txs && s.txs[t] == Calling(e)
    ensures Next(s, Commit(t))
            == Some(State(s.inventory[e.product := e.after], s.sales, s.log + [e], s.readings,
                          s.txs[t := Tx(NO_WORK, None, Refreshing(|s.log|))]))
  {
    assert s.inventory + map[e.product := e.after] == s.inventory[e.product := e.after];
    assert s.sales + [] == s.sales;
  }

  /** A stock call by a new session, up to its commit. */
  lemma CommittingCall(steps: seq<Step>, t: nat, p: Uuid, op: StockOp) returns (longer: seq<Step>)
    requires t !in Run(steps).txs && Unlocked(Run(steps))
    requires ApplyToRow(Stocked(Run(steps).inventory, p), op).Applied?
    ensures var s := Run(steps);
            var e := CallEntry(s, p, op);
            Run(longer) == State(s.inventory[p := e.after], s.sales, s.log + [e],
                                 s.readings, s.txs[t := Tx(NO_WORK, None, Refreshing(|s.log|))])
  {
    hide ApplyToRow, CallEntry;
    var s := Run(steps);
    var begun := WithTx(s, t, Tx(NO_WORK, None, Free));
    var e := CallEntry(s, p, op);
    OneMoreStep(steps, Begin(t));
    assert CallEntry(begun, p, op) == e by { SameEntry(s, begun, p, op); }
    CallChanges(begun, t, p, op);
    OneMoreStep(steps + [Begin(t)], Change(t, p, op, true));
    CallCommits(WithTx(begun, t, Calling(e)), t, e);
    EntryNames(s, p, op);
    OneMoreStep(steps + [Begin(t)] + [Change(t, p, op, true)], Commit(t));
    longer := steps + [Begin(t)] + [Change(t, p, op, true)] + [Commit(t)];
    assert begun.txs[t := Tx(NO_WORK, None, Refreshing(|s.log|))] == s.txs[t := Tx(NO_WORK, None, Refreshing(|s.log|))];
  }

  lemma SameEntry(s: State, later: State, p: Uuid, op: StockOp)
    requires s.inventory == later.inventory && ApplyToRow(Stocked(s.inventory, p), op).Applied?
    ensures CallEntry(s, p, op) == CallEntry(later, p, op)
  {
  }

  lemma EntryNames(s: State, p: Uuid, op: StockOp)
    requires ApplyToRow(Stocked(s.inventory, p), op).Applied?
    ensures CallEntry(s, p, op).product == p
  {
  }

  /** The end of that call. */
  lemma SecondReading(steps: seq<Step>, t: nat) returns (longer: seq<Step>)
    requires t in Run(steps).txs && Run(steps).txs[t].phase.Refreshing?
    requires var s := Run(steps);
             var at := s.txs[t].phase.at;
             at < |s.log| && s.log[at].product in s.inventory
    ensures var s := Run(steps);
            var at := s.txs[t].phase.at;
            Run(longer) == s.(
              readings := s.readings[at := Reading(|s.log|, s.inventory[s.log[at].product])],
              txs := s.txs[t := Tx(NO_WORK, None, Free)])
  {
    OneMoreStep(steps, Refresh(t));
    longer := steps + [Refresh(t)];
  }

  /** A stock of ten over a threshold of five. One session takes `first` and commits, another makes the
      change `second` and commits, and only then do both read the row again. */
  lemma Interference(first: int, second: StockOp) returns (steps: seq<Step>)
    requires 0 < first <= 10 && ApplyToRow(Some(Inventory(10 - first, 5)), second).Applied?
    ensures var s := Run(steps);
            var left, right := Inventory(10 - first, 5), ApplyToRow(Some(Inventory(10 - first, 5)), second).row;
            && s.log == [Entry(7, Restock(10), None, true, None, Inventory(10, 5)),
                         Entry(7, Deduct(first), None, true, Some(Inventory(10, 5)), left),
                         Entry(7, second, None, true, Some(left), right)]
            && 1 in s.readings && 2 in s.readings && s.readings[1].row == s.readings[2].row == right
  {
    hide Next, Changed, Run;
    var left := Inventory(10 - first, 5);
    var right := ApplyToRow(Some(left), second).row;
    steps := StockedSteps();
    steps := CommittingCall(steps, 1, 7, Deduct(first));
    assert Run(steps).inventory[7] == left && Unlocked(Run(steps));
    steps := CommittingCall(steps, 2, 7, second);
    assert Run(steps).inventory[7] == right && |Run(steps).log| == 3;
    steps := SecondReading(steps, 2);
    steps := SecondReading(steps, 1);
  }

  /** The opening of that run: ten units arrive. */
  lemma StockedSteps() returns (steps: seq<Step>)
    ensures var ten := Inventory(10, 5);
            Run(steps) == State(map[7 := ten], [], [Entry(7, Restock(10), None, true, None, ten)],
                                map[], map[0 := Tx(NO_WORK, None, Refreshing(0))])
  {
    steps := CommittingCall([], 0, 7, Restock(10));
    assert Run([]) == EMPTY;
  }

  lemma OpsOfThree(log: seq<Entry>, p: Uuid)
    requires |log| == 3 && log[0].product == log[1].product == log[2].product == p
    ensures OpsOn(log, p) == [log[0].op, log[1].op, log[2].op]
  {
    assert log[..0] == [] && log[..3] == log;
    OneMoreOp(log, 0);
    OneMoreOp(log, 1);
    OneMoreOp(log, 2);
    assert OpsOn(log[..1], p) == [log[0].op];
    assert OpsOn(log[..2], p) == [log[0].op, log[1].op];
  }

  function One(b: bool): nat {
    if b then 1 else 0
  }

  lemma CountsOfThree(s: State, p: Uuid)
    requires |s.log| == 3 && s.log[0].product == s.log[1].product == s.log[2].product == p
    ensures SpuriousCount(s, 3, p) == One(Spurious(s, 0)) + One(Spurious(s, 1)) + One(Spurious(s, 2))
    ensures MissedCount(s, 3, p) == One(Missed(s, 0)) + One(Missed(s, 1)) + One(Missed(s, 2))
  {
    hide Spurious, Missed;
    assert SpuriousCount(s, 1, p) == One(Spurious(s, 0));
    assert SpuriousCount(s, 2, p) == SpuriousCount(s, 1, p) + One(Spurious(s, 1));
    assert MissedCount(s, 1, p) == One(Missed(s, 0));
    assert MissedCount(s, 2, p) == MissedCount(s, 1, p) + One(Missed(s, 1));
  }

  /** Two deductions alert although nothing lifts the product in between: the first one answers from the
      row that the second has left. */
  lemma RacingDeductionsAlertTwice() returns (steps: seq<Step>)
    ensures var s := Run(steps);
            && OpsOn(s.log, 7) == [Restock(10), Deduct(1), Deduct(5)] && |s.log| == 3
            && Answered(s, 1) == Some(true) && Answered(s, 2) == Some(true)
            && !Crossed(s.log[1]) && Crossed(s.log[2])
            && BothAlert(s, 7, 1, 2) && !LowBefore(s.log, 7, 1, 2) && !LiftedBetween(s.log, 7, 1, 2)
            && AlertsGiven(s, 3, 7) == 2 && !ReadsAlike(s, 1) && !Balanced(s, 3, 7)
  {
    hide Run, Balanced;
    steps := Interference(1, Deduct(5));
    var s := Run(steps);
    OpsOfThree(s.log, 7);
    assert AlertsGiven(s, 1, 7) == 0 && AlertsGiven(s, 2, 7) == 1;
    CountsOfThree(s, 7);
    AlertsBalanceIff(steps, 3, 7);
  }

  /** And a restock in that gap makes a deduction that crossed the threshold answer that it did not. */
  lemma RacingRestockLosesAlert() returns (steps: seq<Step>)
    ensures var s := Run(steps);
            && OpsOn(s.log, 7) == [Restock(10), Deduct(5), Restock(5)] && |s.log| == 3
            && Answered(s, 1) == Some(false) && Crossed(s.log[1])
            && !ReadsAlike(s, 1) && !Balanced(s, 3, 7)
  {
    hide Run, Balanced;
    steps := Interference(5, Restock(5));
    var s := Run(steps);
    OpsOfThree(s.log, 7);
    CountsOfThree(s, 7);
    AlertsBalanceIff(steps, 3, 7);
  }
}
