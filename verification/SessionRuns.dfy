/** Sequential runs: the messages of one phone number, one after the other, with expiries of the
    session and other users of the database in between. What the error counter counts, how the
    history grows, and where the remembered analytics call comes from. */
module SessionRuns {
  import opened Text
  import opened Inputs
  import opened Resolver
  import opened Ledger
  import opened Analytics
  import opened Conversation
  import opened SessionInvariant
  import opened Worker

  datatype Happening = Message(text: string, env: Env) | Expiry | Outside(db: DbState)

  datatype Standing = Standing(raw: Raw, db: DbState)

  /** What a turn was for the error counter: a message that failed outright and saved nothing, an
      invalid one, an invalid one that hit the limit, any other message, or no message at all. */
  datatype Verdict = Lost | Wrong | GaveUp | Fine | Forgotten | Elsewhere

  function Served(phone: string, st: Standing, t: Happening): Service
    requires t.Message?
  {
    Serve(Opened(phone, Decoded(st.raw)), st.db, t.text, t.env)
  }

  function After(phone: string, st: Standing, t: Happening): Standing {
    match t
    case Message(_, _) =>
      var service := Served(phone, st, t);
      if service.session.None? then st.(db := service.db)
      else
        Standing(UpdateScript(st.raw, ExpectedState(Decoded(st.raw)), service.session.value).0, service.db)
    case Expiry => st.(raw := Absent)
    case Outside(db) => st.(db := db)
  }

  function VerdictOf(phone: string, st: Standing, t: Happening): Verdict {
    match t
    case Message(_, _) =>
      var service := Served(phone, st, t);
      if service.session.None? then Lost
      else if service.reply.Invalid? then Wrong
      else if service.reply == Done(TooManyInvalid) then GaveUp
      else Fine
    case Expiry => Forgotten
    case Outside(_) => Elsewhere
  }

  function Run(phone: string, db: DbState, turns: seq<Happening>): Standing {
    if turns == [] then Standing(Absent, db)
    else After(phone, Run(phone, db, turns[..|turns| - 1]), turns[|turns| - 1])
  }

  /** The verdict on turn `i` of a run. */
  function VerdictAt(phone: string, db: DbState, turns: seq<Happening>, i: nat): Verdict
    requires i < |turns|
  {
    VerdictOf(phone, Run(phone, db, turns[..i]), turns[i])
  }

  ghost predicate Lawful(st: Standing, t: Happening, g: Setting) {
    match t
    case Message(_, env) =>
      env.maxErrors == g.maxErrors && EnvOk(g.phone, World(st.db, st.db, []), env, g.universe)
    case Expiry => true
    case Outside(db) => DbOk(db, g.universe)
  }

  ghost predicate LawfulRun(db: DbState, turns: seq<Happening>, g: Setting) {
    DbOk(db, g.universe) && forall i :: 0 <= i < |turns| ==> Lawful(Run(g.phone, db, turns[..i]), turns[i], g)
  }

  /** The key holds nothing, or a well-formed session of this phone number. */
  ghost predicate Sound(st: Standing, g: Setting) {
    && DbOk(st.db, g.universe)
    && (st.raw.Absent?
        || (st.raw.Stored? && st.raw.session.phone == g.phone && WellFormed(st.raw.session, g.universe, g.maxErrors)))
  }

  lemma RunStep(phone: string, db: DbState, turns: seq<Happening>, n: nat)
    requires n < |turns|
    ensures Run(phone, db, turns[..n + 1]) == After(phone, Run(phone, db, turns[..n]), turns[n])
  {
    assert turns[..n + 1][..n] == turns[..n] && turns[..n + 1][n] == turns[n];
  }

  lemma OpenedIsWellFormed(st: Standing, g: Setting)
    requires Sound(st, g)
    ensures var s := Opened(g.phone, Decoded(st.raw));
            s.phone == g.phone && WellFormed(s, g.universe, g.maxErrors)
  {
    assert Path(NewSession(g.phone)) == [IDLE];
  }

  /** In a sequential run every save goes through, and the saved session extends the one before. */
  lemma TurnKeepsSound(st: Standing, t: Happening, g: Setting)
    requires Sound(st, g) && Lawful(st, t, g)
    ensures Sound(After(g.phone, st, t), g)
    ensures t.Message? && Served(g.phone, st, t).session.Some? ==>
      && After(g.phone, st, t).raw == Stored(Served(g.phone, st, t).session.value)
      && Path(Opened(g.phone, Decoded(st.raw))) <= Path(Served(g.phone, st, t).session.value)
  {
    hide WellFormed, DbOk, EnvOk, Process;
    if t.Message? {
      OpenedIsWellFormed(st, g);
      MessageKeepsInvariant(Opened(g.phone, Decoded(st.raw)), World(st.db, st.db, []), t.text, t.env, g.universe);
    }
  }

  lemma {:induction false} RunIsSound(db: DbState, turns: seq<Happening>, n: nat, g: Setting)
    requires n <= |turns| && LawfulRun(db, turns, g)
    ensures Sound(Run(g.phone, db, turns[..n]), g)
  {
    hide After, Lawful, WellFormed, DbOk;
    if n > 0 {
      RunIsSound(db, turns, n - 1, g);
      RunStep(g.phone, db, turns, n - 1);
      TurnKeepsSound(Run(g.phone, db, turns[..n - 1]), turns[n - 1], g);
    }
  }

  // -------------------------------------------------------------- error counter

  function Errors(raw: Raw): int {
    if raw.Stored? then raw.session.context.errorCount else 0
  }

  predicate ClearsErrors(v: Verdict) {
    v == Fine || v == GaveUp || v == Forgotten
  }

  /** The invalid messages since the counter was last cleared. */
  function WrongSince(phone: string, db: DbState, turns: seq<Happening>, n: nat): nat
    requires n <= |turns|
  {
    if n == 0 || ClearsErrors(VerdictAt(phone, db, turns, n - 1)) then 0
    else WrongSince(phone, db, turns, n - 1) + if VerdictAt(phone, db, turns, n - 1) == Wrong then 1 else 0
  }

  /** No handler gives up on its own. */
  lemma HandlersNeverGiveUp(s: Session, w: World, text: string, env: Env)
    ensures Handle(s, w, text, env).reply != Done(TooManyInvalid)
  {
    hide ParseProductName, ParsePrice, ParseQuantity, ParseConfirmation, GetShopId, Orchestrated, RecordedSale;
    hide PersistProduct, FindByFuzzyName, Execute, CanRoute, ParseInt;
  }

  lemma MessageCountsErrors(s: Session, w: World, text: string, env: Env)
    ensures var h := Process(s, w, text, env);
            && (h.reply.Invalid? ==>
                  h.session.context.errorCount == s.context.errorCount + 1 < env.maxErrors)
            && (h.reply.Done? ==> h.session.context.errorCount == 0)
            && (h.reply == Done(TooManyInvalid) ==>
                  && s.context.errorCount + 1 >= env.maxErrors
                  && h.session.state == IDLE && EmptyDraft(h.session.context))
  {
    hide Handle, IsOverride;
    HandlersNeverGiveUp(s, w, text, env);
  }

  lemma TurnCountsErrors(st: Standing, t: Happening, g: Setting)
    requires Sound(st, g) && Lawful(st, t, g)
    ensures var v, after := VerdictOf(g.phone, st, t), After(g.phone, st, t).raw;
            && Errors(after) == (if ClearsErrors(v) then 0 else Errors(st.raw) + if v == Wrong then 1 else 0)
            && (v == Wrong ==> Errors(st.raw) + 1 < g.maxErrors)
            && (v == GaveUp ==>
                  && Errors(st.raw) + 1 >= g.maxErrors
                  && after.Stored? && after.session.state == IDLE && EmptyDraft(after.session.context))
  {
    hide Process, WellFormed, DbOk, EnvOk, EmptyDraft, Path;
    if t.Message? {
      TurnKeepsSound(st, t, g);
      MessageCountsErrors(Opened(g.phone, Decoded(st.raw)), World(st.db, st.db, []), t.text, t.env);
    }
  }

  /** After every run the saved counter is the number of invalid messages since the last message that
      was not invalid, the last reset at the limit, or the last expiry; and it is below the limit. */
  lemma {:induction false} CounterCountsWrongMessages(db: DbState, turns: seq<Happening>, n: nat, g: Setting)
    requires n <= |turns| && LawfulRun(db, turns, g)
    ensures Errors(Run(g.phone, db, turns[..n]).raw) == WrongSince(g.phone, db, turns, n)
    ensures ErrorsBelow(WrongSince(g.phone, db, turns, n), g.maxErrors)
  {
    hide After, Lawful, Sound, VerdictOf;
    if n > 0 {
      var st := Run(g.phone, db, turns[..n - 1]);
      CounterCountsWrongMessages(db, turns, n - 1, g);
      RunIsSound(db, turns, n - 1, g);
      RunStep(g.phone, db, turns, n - 1);
      TurnCountsErrors(st, turns[n - 1], g);
    }
  }

  predicate IsInvalid(v: Verdict) {
    v == Wrong || v == GaveUp
  }

  /** An invalid message resets the conversation exactly when it is the one that reaches the limit. */
  lemma GivesUpExactlyAtLimit(db: DbState, turns: seq<Happening>, i: nat, g: Setting)
    requires i < |turns| && LawfulRun(db, turns, g) && IsInvalid(VerdictAt(g.phone, db, turns, i))
    ensures VerdictAt(g.phone, db, turns, i) == GaveUp
            <==> WrongSince(g.phone, db, turns, i) + 1 >= g.maxErrors
    ensures VerdictAt(g.phone, db, turns, i) == GaveUp ==>
      var after := Run(g.phone, db, turns[..i + 1]).raw;
      after.Stored? && after.session.state == IDLE && EmptyDraft(after.session.context) && Errors(after) == 0
  {
    hide After, Lawful, Sound, VerdictOf, EmptyDraft;
    RunIsSound(db, turns, i, g);
    RunStep(g.phone, db, turns, i);
    CounterCountsWrongMessages(db, turns, i, g);
    TurnCountsErrors(Run(g.phone, db, turns[..i]), turns[i], g);
  }

  /** The invalid messages among turns `i` up to, and without, `j`. */
  function InvalidBetween(phone: string, db: DbState, turns: seq<Happening>, i: nat, j: nat): nat
    requires i <= j <= |turns|
    decreases j
  {
    if i == j then 0
    else InvalidBetween(phone, db, turns, i, j - 1) + if IsInvalid(VerdictAt(phone, db, turns, j - 1)) then 1 else 0
  }

  /** Among any `maxErrors` invalid messages with no other success and no expiry in between, one gives
      up: it leaves the session in IDLE with an empty draft. */
  lemma {:induction false} InvalidStreakGivesUp(db: DbState, turns: seq<Happening>, i: nat, j: nat, g: Setting)
    returns (k: nat)
    requires i <= j <= |turns| && LawfulRun(db, turns, g) && g.maxErrors >= 1
    requires forall m :: i <= m < j ==> VerdictAt(g.phone, db, turns, m) !in {Fine, Forgotten}
    requires InvalidBetween(g.phone, db, turns, i, j) >= g.maxErrors
    ensures i <= k < j && VerdictAt(g.phone, db, turns, k) == GaveUp
    ensures var after := Run(g.phone, db, turns[..k + 1]).raw;
            after.Stored? && after.session.state == IDLE && EmptyDraft(after.session.context)
  {
    hide LawfulRun, Run, EmptyDraft, VerdictAt;
    if m :| i <= m < j && VerdictAt(g.phone, db, turns, m) == GaveUp {
      k := m;
      GivesUpExactlyAtLimit(db, turns, m, g);
    } else {
      StreakIsCounted(db, turns, i, j, g);
      CounterCountsWrongMessages(db, turns, j, g);
      assert false;
    }
  }

  lemma {:induction false} StreakIsCounted(db: DbState, turns: seq<Happening>, i: nat, j: nat, g: Setting)
    requires i <= j <= |turns|
    requires forall m :: i <= m < j ==> !ClearsErrors(VerdictAt(g.phone, db, turns, m))
    ensures WrongSince(g.phone, db, turns, j) >= InvalidBetween(g.phone, db, turns, i, j)
    decreases j
  {
    hide VerdictAt;
    if i < j {
      StreakIsCounted(db, turns, i, j - 1, g);
    }
  }

  // --------------------------------------------------------------------- history

  /** Between expiries the history only grows, at its end. */
  lemma {:induction false} HistoryOnlyGrows(db: DbState, turns: seq<Happening>, i: nat, j: nat, g: Setting)
    requires i <= j <= |turns| && LawfulRun(db, turns, g)
    requires forall m :: i <= m < j ==> !turns[m].Expiry?
    ensures var before, after := Run(g.phone, db, turns[..i]).raw, Run(g.phone, db, turns[..j]).raw;
            before.Stored? ==> after.Stored? && Path(before.session) <= Path(after.session)
    decreases j
  {
    hide Lawful, Sound, Path, Serve;
    if i < j {
      HistoryOnlyGrows(db, turns, i, j - 1, g);
      RunIsSound(db, turns, j - 1, g);
      RunStep(g.phone, db, turns, j - 1);
      TurnKeepsSound(Run(g.phone, db, turns[..j - 1]), turns[j - 1], g);
    }
  }
}
