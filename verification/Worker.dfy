/** The session store and the worker task: read, process, commit, save
    (app/fsm/conversation_store.py, app/fsm/lua/update_session_state.lua, app/workers/conversation_tasks.py). */
module Worker {
  import opened Text
  import opened Inputs
  import opened Resolver
  import opened Ledger
  import opened Conversation
  import opened Engine

  /** What a session key holds: nothing, a session, JSON that is no session (with its `state` field
      if it has one), or text that is no JSON. */
  datatype Raw = Absent | Stored(session: Session) | OtherJson(state: Option<SessionState>) | NotJson

  datatype SaveResult = Success | StateMismatch | CorruptedData

  function Decoded(raw: Raw): Option<Session> {
    if raw.Stored? then Some(raw.session) else None
  }

  /** The `state` field that the script compares. */
  function StateField(raw: Raw): Option<SessionState> {
    match raw
    case Stored(s) => Some(s.state)
    case OtherJson(state) => state
    case _ => None
  }

  /** update_session_state.lua */
  function UpdateScript(raw: Raw, expected: SessionState, payload: Session): (r: (Raw, SaveResult))
    ensures r.1 == Success <==> r.0 == Stored(payload) && (raw.Absent? || StateField(raw) == Some(expected))
    ensures r.1 != Success ==> r.0 == raw
    ensures r.1 == CorruptedData <==> raw.NotJson?
  {
    if raw.NotJson? then (raw, CorruptedData)
    else if !raw.Absent? && StateField(raw) != Some(expected) then (raw, StateMismatch)
    else (Stored(payload), Success)
  }

  function ExpectedState(before: Option<Session>): SessionState {
    if before.Some? then before.value.state else IDLE
  }

  class ConversationStore {
    var entries: map<string, Raw>

    constructor ()
      ensures entries == map[]
    {
      entries := map[];
    }

    function At(phone: string): Raw
      reads this
    {
      if phone in entries then entries[phone] else Absent
    }

    method GetSession(phone: string) returns (s: Option<Session>)
      ensures s == Decoded(At(phone))
    {
      if phone !in entries {
        return None;
      }
      match entries[phone]
      case Stored(session) => s := Some(session);
      case _ => s := None;
    }

    method SaveSession(phone: string, payload: Session, before: Option<Session>) returns (r: SaveResult)
      modifies this
      ensures (At(phone), r) == UpdateScript(old(At(phone)), ExpectedState(before), payload)
      ensures forall other :: other != phone ==> At(other) == old(At(other))
    {
      var expected := if before.Some? then before.value.state else IDLE;
      if phone in entries && entries[phone] != Absent {
        if entries[phone].NotJson? {
          return CorruptedData;
        }
        if StateField(entries[phone]) != Some(expected) {
          return StateMismatch;
        }
      }
      entries := entries[phone := Stored(payload)];
      r := Success;
    }
  }

  // -------------------------------------------------------------- one message

  /** What handling a message leaves: the committed database, the enqueued tasks, the reply, and the
      session to save unless the task failed. */
  datatype Service = Service(db: DbState, tasks: seq<Task>, reply: Reply, session: Option<Session>)

  function Opened(phone: string, before: Option<Session>): Session {
    if before.Some? then before.value else NewSession(phone)
  }

  /** The body of `async with get_worker_db()`: any exception takes back what is not yet committed. */
  function Serve(s: Session, db: DbState, text: string, env: Env): Service {
    var h := Process(s, World(db, db, []), text, env);
    if h.reply.Escaped? || LocaleRead in env.faults || FinalCommit in env.faults then
      Service(h.world.committed, h.world.tasks, h.reply, None)
    else Service(h.world.working, h.world.tasks, h.reply, Some(h.session))
  }

  datatype TaskResult = Replied(key: MessageKey) | TaskFailed | SaveFailed(result: SaveResult)

  function AnswerKey(r: Reply): MessageKey
    requires !r.Escaped?
  {
    r.key
  }

  /** conversation(): the database is committed before the session is saved. */
  method Converse(store: ConversationStore, db: Database, outbox: Outbox, phone: string, text: string, env: Env)
    returns (result: TaskResult)
    requires db.committed == db.working && outbox.tasks == []
    modifies store, db, outbox
    ensures var before := Decoded(old(store.At(phone)));
            var service := Serve(Opened(phone, before), old(db.committed), text, env);
            && db.committed == db.working == service.db && outbox.tasks == service.tasks
            && (match service.session
                case None => result == TaskFailed && store.At(phone) == old(store.At(phone))
                case Some(session) =>
                  var (raw, saved) := UpdateScript(old(store.At(phone)), ExpectedState(before), session);
                  && store.At(phone) == raw
                  && result == if saved == Success then Replied(AnswerKey(service.reply)) else SaveFailed(saved))
            && forall other :: other != phone ==> store.At(other) == old(store.At(other))
  {
    var before := store.GetSession(phone);
    var session := new UserSession(Opened(phone, before));
    var engine := new FSMEngine(db, outbox, env);
    var reply := engine.ProcessMessage(session, text);
    if reply.Escaped? || LocaleRead in env.faults {
      db.Rollback();
      return TaskFailed;
    }
    if FinalCommit in env.faults {
      db.Rollback();
      return TaskFailed;
    }
    db.Commit();
    var saved := store.SaveSession(phone, session.View(), before);
    result := if saved == Success then Replied(AnswerKey(reply)) else SaveFailed(saved);
  }
}
