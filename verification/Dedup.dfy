/** Webhook deliveries: claim the message id for a while, then dispatch the conversation task
    (app/fsm/conversation_store.py, app/api/routes/webhook.py). */
module Dedup {

  /** What may go wrong around the claim: the command never runs, or it runs and its answer is lost. */
  datatype RedisFault = NoFault | CommandLost | AnswerLost

  /** A delivery claims its id at the instant `at`; its dispatch, if any, takes place `lag` later. */
  datatype Delivery = Delivery(id: string, at: int, lag: nat, redis: RedisFault, brokerUp: bool)

  function DispatchTime(d: Delivery): int {
    d.at + d.lag
  }

  /** A task on the broker, and when it got there. */
  datatype Published = Published(id: string, at: int)

  datatype Response = Dispatched | Ignored | ClaimError | DispatchError

  /** The live claims: each id with the instant at which its key expires. */
  type Claims = map<string, int>

  predicate Live(claims: Claims, id: string, now: int) {
    id in claims && now < claims[id]
  }

  /** `SET key NX EX ttl` */
  function Claimed(claims: Claims, id: string, now: int, ttl: nat): Claims {
    if Live(claims, id, now) then claims else claims[id := now + ttl]
  }

  /** One delivery: the claims after it, and what the webhook answers. */
  function Received(claims: Claims, d: Delivery, ttl: nat): (Claims, Response) {
    if d.redis == CommandLost then (claims, ClaimError)
    else if d.redis == AnswerLost then (Claimed(claims, d.id, d.at, ttl), ClaimError)
    else if Live(claims, d.id, d.at) then (claims, Ignored)
    else (Claimed(claims, d.id, d.at, ttl), if d.brokerUp then Dispatched else DispatchError)
  }

  class MessageStore {
    var claims: Claims

    constructor ()
      ensures claims == map[]
    {
      claims := map[];
    }

    /** ConversationStore.is_duplicate, on a Redis that answers. */
    method IsDuplicate(id: string, now: int, ttl: nat) returns (duplicate: bool)
      modifies this
      ensures duplicate <==> Live(old(claims), id, now)
      ensures claims == Claimed(old(claims), id, now, ttl)
    {
      var created := id !in claims || now >= claims[id];
      if created {
        claims := claims[id := now + ttl];
      }
      duplicate := !created;
    }
  }

  class TaskQueue {
    var tasks: seq<Published>

    constructor ()
      ensures tasks == []
    {
      tasks := [];
    }
  }

  /** webhook(): a delivery is dispatched only after its claim, and the claim is never given back. */
  method Receive(store: MessageStore, queue: TaskQueue, d: Delivery, ttl: nat) returns (r: Response)
    modifies store, queue
    ensures (store.claims, r) == Received(old(store.claims), d, ttl)
    ensures queue.tasks == old(queue.tasks) + if r == Dispatched then [Published(d.id, DispatchTime(d))] else []
  {
    if d.redis == CommandLost {
      return ClaimError;
    }
    var duplicate := store.IsDuplicate(d.id, d.at, ttl);
    if d.redis == AnswerLost {
      return ClaimError;
    }
    if duplicate {
      return Ignored;
    }
    if !d.brokerUp {
      return DispatchError;
    }
    queue.tasks := queue.tasks + [Published(d.id, d.at + d.lag)];
    r := Dispatched;
  }

  // --------------------------------------------------------------------- runs

  function ClaimsAfter(run: seq<Delivery>, ttl: nat): Claims {
    if run == [] then map[]
    else Received(ClaimsAfter(run[..|run| - 1], ttl), run[|run| - 1], ttl).0
  }

  function ResponseTo(run: seq<Delivery>, i: nat, ttl: nat): Response
    requires i < |run|
  {
    Received(ClaimsAfter(run[..i], ttl), run[i], ttl).1
  }

  /** Delivery `i` took the claim of its message id. */
  predicate TakesClaim(run: seq<Delivery>, i: nat, ttl: nat)
    requires i < |run|
  {
    run[i].redis != CommandLost && !Live(ClaimsAfter(run[..i], ttl), run[i].id, run[i].at)
  }

  predicate InOrder(run: seq<Delivery>) {
    forall i, j :: 0 <= i < j < |run| ==> run[i].at <= run[j].at
  }

  /** A recent delivery of the same message holds the claim. */
  predicate HeldBy(run: seq<Delivery>, i: nat, j: nat, ttl: nat)
    requires i < j < |run|
  {
    TakesClaim(run, i, ttl) && run[i].id == run[j].id && run[j].at < run[i].at + ttl
  }

  lemma ClaimsStep(run: seq<Delivery>, n: nat, ttl: nat)
    requires n < |run|
    ensures ClaimsAfter(run[..n + 1], ttl) == Received(ClaimsAfter(run[..n], ttl), run[n], ttl).0
    ensures ClaimsAfter(run[..n + 1], ttl) ==
            if TakesClaim(run, n, ttl) then ClaimsAfter(run[..n], ttl)[run[n].id := run[n].at + ttl]
            else ClaimsAfter(run[..n], ttl)
  {
    assert run[..n + 1][..n] == run[..n] && run[..n + 1][n] == run[n];
  }

  /** A key lives at least as long as each claim on it says. */
  lemma {:induction false} KeysCoverClaims(run: seq<Delivery>, i: nat, n: nat, ttl: nat)
    requires i < n <= |run| && InOrder(run) && TakesClaim(run, i, ttl)
    ensures var claims := ClaimsAfter(run[..n], ttl);
            run[i].id in claims && claims[run[i].id] >= run[i].at + ttl
  {
    hide ClaimsAfter, TakesClaim;
    ClaimsStep(run, n - 1, ttl);
    if i < n - 1 {
      KeysCoverClaims(run, i, n - 1, ttl);
    }
  }

  /** And exactly as long as one of them says. */
  lemma {:induction false} KeysComeFromClaims(run: seq<Delivery>, id: string, n: nat, ttl: nat) returns (i: nat)
    requires n <= |run| && id in ClaimsAfter(run[..n], ttl)
    ensures i < n && TakesClaim(run, i, ttl) && run[i].id == id
    ensures ClaimsAfter(run[..n], ttl)[id] == run[i].at + ttl
  {
    assert n != 0;
    ClaimsStep(run, n - 1, ttl);
    if TakesClaim(run, n - 1, ttl) && run[n - 1].id == id {
      i := n - 1;
    } else {
      i := KeysComeFromClaims(run, id, n - 1, ttl);
    }
  }

  /** In every run of deliveries over time, what the webhook answers is decided by the claims alone: a
      delivery is ignored exactly when a delivery of the same message took the claim less than the
      time-to-live ago. An ignored delivery takes no claim, so it never prolongs one. */
  lemma IgnoredIffRecentlyClaimed(run: seq<Delivery>, j: nat, ttl: nat)
    requires j < |run| && InOrder(run) && run[j].redis == NoFault
    ensures ResponseTo(run, j, ttl) == Ignored <==> exists i :: 0 <= i < j && HeldBy(run, i, j, ttl)
    ensures ResponseTo(run, j, ttl) == Ignored <==> !TakesClaim(run, j, ttl)
  {
    hide ClaimsAfter;
    forall i | 0 <= i < j && TakesClaim(run, i, ttl)
      ensures var claims := ClaimsAfter(run[..j], ttl);
              run[i].id in claims && claims[run[i].id] >= run[i].at + ttl
    {
      KeysCoverClaims(run, i, j, ttl);
    }
    if Live(ClaimsAfter(run[..j], ttl), run[j].id, run[j].at) {
      var i := KeysComeFromClaims(run, run[j].id, j, ttl);
      assert HeldBy(run, i, j, ttl);
    }
  }

  /** Deliveries `i` and `j` of a run over time dispatch the same message. */
  predicate DispatchesTwice(run: seq<Delivery>, i: nat, j: nat, ttl: nat) {
    && i < j < |run| && InOrder(run) && run[i].id == run[j].id
    && ResponseTo(run, i, ttl) == Dispatched && ResponseTo(run, j, ttl) == Dispatched
  }

  /** The claims behind two dispatches of a message are at least the time-to-live apart, and the dispatches
      themselves by that much more or less as the second one took longer or shorter after its claim. */
  lemma DispatchesAreApart(run: seq<Delivery>, i: nat, j: nat, ttl: nat)
    requires DispatchesTwice(run, i, j, ttl)
    ensures run[j].at >= run[i].at + ttl
    ensures DispatchTime(run[j]) - DispatchTime(run[i]) >= ttl + run[j].lag - run[i].lag
  {
    IgnoredIffRecentlyClaimed(run, j, ttl);
    assert !HeldBy(run, i, j, ttl);
  }

  /** In every run in which a message is dispatched twice with these lags, the dispatches are at least the
      time-to-live apart. */
  ghost predicate AlwaysApart(first: nat, second: nat, ttl: nat) {
    forall run: seq<Delivery>, i: nat, j: nat ::
      DispatchesTwice(run, i, j, ttl) && run[i].lag == first && run[j].lag == second ==>
      DispatchTime(run[j]) - DispatchTime(run[i]) >= ttl
  }

  /** The time-to-live holds between the dispatches themselves, whatever the times of the claims, exactly
      when the second dispatch follows its claim no faster than the first one did. */
  lemma DispatchGapNeedsLag(first: nat, second: nat, ttl: nat)
    ensures AlwaysApart(first, second, ttl) <==> second >= first
  {
    if second >= first {
      forall run: seq<Delivery>, i: nat, j: nat
        | DispatchesTwice(run, i, j, ttl) && run[i].lag == first && run[j].lag == second
        ensures DispatchTime(run[j]) - DispatchTime(run[i]) >= ttl
      {
        DispatchesAreApart(run, i, j, ttl);
      }
    } else {
      var run := [Delivery("wamid", 0, first, NoFault, true), Delivery("wamid", ttl, second, NoFault, true)];
      assert run[..0] == [] && run[..1] == [run[0]] && run[..1][..0] == [];
      assert ClaimsAfter(run[..1], ttl) == map["wamid" := ttl as int];
      assert DispatchesTwice(run, 0, 1, ttl);
      assert DispatchTime(run[1]) - DispatchTime(run[0]) < ttl;
    }
  }

  /** A claim outlives a failed dispatch: until the time-to-live is over, every redelivery of a message
      that no worker will ever see is ignored. */
  lemma FailedDispatchSilencesRetries(run: seq<Delivery>, i: nat, j: nat, ttl: nat)
    requires i < j < |run| && InOrder(run) && run[i].id == run[j].id
    requires ResponseTo(run, i, ttl) == DispatchError && run[j].redis == NoFault
    requires run[j].at < run[i].at + ttl
    ensures ResponseTo(run, j, ttl) == Ignored
  {
    IgnoredIffRecentlyClaimed(run, j, ttl);
    assert HeldBy(run, i, j, ttl);
  }
}
