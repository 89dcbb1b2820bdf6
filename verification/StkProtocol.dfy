/**
 The STK payment protocol of app/services/stk.py and app/tasks/reconciliation_tasks.py as a transition
 system: any number of initiations, callbacks and sweeps interleave at every await, over one payments
 table and one Redis.

 A run is any sequence of labels. `Next` is total: a label that does not apply changes nothing, so every
 sequence of labels is a run and "for every interleaving" is "for every sequence of labels". The
 environment's part is in the labels: what Redis, the database and Daraja answer, when the clock
 advances, when a key expires or is lost, when an actor crashes or is cancelled.
 */
module StkProtocol {
  import opened Basics
  import opened Payments

  /** `attempts` is daraja_retry_attempts; `sweepTestsStatus` repairs the sweep's update. */
  datatype Config = Config(attempts: nat, sweepTestsStatus: bool)

  const STALE_AFTER := 600
  const BATCH_LIMIT := 50

  type ActorId = nat

  datatype Request = Request(key: string, phone: string, amount: int)

  datatype Response = Response(paymentId: PaymentId, checkout: string, merchant: string, status: Status)

  datatype Callback = Callback(checkout: string, code: int, description: string,
                               receipt: Option<string>, amount: Option<real>, paidAt: Option<int>)

  /** `Escaped` is any exception that `except DarajaError` does not catch, tenacity's RetryError first of all. */
  datatype Error = ConcurrentRequest | DatabaseError | DarajaFailure | Escaped | Interrupted

  datatype Outcome = Returned(response: Response) | Raised(error: Error)

  datatype Ending = Ignored | Unmatched | Applied | Errored

  /** A row as the sweep's SELECT returns it. */
  datatype Candidate = Candidate(id: PaymentId, receipt: Option<string>)

  /** Where an actor stands; each constructor is a point before an await. */
  datatype Actor =
    // initiate_stk_push
    | ReadCache(req: Request)
    | TakeLock(req: Request)
    | LookUp(req: Request)
    | Insert(req: Request, id: PaymentId)
    | Call(req: Request, id: PaymentId)
    | Attempt(req: Request, id: PaymentId, used: nat)
    | StoreIds(req: Request, id: PaymentId, checkout: string, merchant: string)
    | RecordFailure(req: Request, id: PaymentId)
    | FillCache(req: Request, response: Response)
    | Release(req: Request, outcome: Outcome)
    | Finished(req: Request, outcome: Outcome)
    // process_callback
    | TakeGuard(cb: Callback)
    | FindPayment(cb: Callback)
    | ApplyOutcome(cb: Callback, id: PaymentId)
    | CallbackEnded(cb: Callback, ending: Ending)
    // expire_stale_pending_payments
    | Select(cutoff: int)
    | Sweeping(batch: seq<Candidate>)
    // gone without running its `finally` block
    | Crashed

  datatype Event =
    | Initiated(id: PaymentId, key: string, phone: string, amount: int)
    | Posted(id: PaymentId, key: string, phone: string, amount: int)

  /** What the actors share: the table, Redis, the clock, and a record of what went out to Daraja. */
  datatype Memory = Memory(rows: Table, cache: map<string, Response>, locks: set<string>, guards: set<string>,
                           log: seq<Event>, admitted: seq<Callback>, now: int)

  datatype State = State(mem: Memory, actors: map<ActorId, Actor>)

  /** A Redis command succeeds, fails without effect, or takes effect although its reply is lost. */
  datatype RedisReply = Up | Down | Lost

  /** What the environment answers at an await. A SELECT answers with `Found`, `NotFound` or `Batch`, or fails. */
  datatype Answer =
    | Redis(redis: RedisReply)
    | Db(db: DbReply)
    | Found(id: PaymentId)
    | NotFound(newId: PaymentId)
    | CircuitClosed
    | CircuitOpen
    | Accepted(checkout: string, merchant: string)
    | Rejected
    | Transient
    | Broken
    | NoToken
    | Unsent
    | Batch(ids: seq<PaymentId>)

  datatype Label =
    | Arrive(actor: ActorId, req: Request)
    | Deliver(actor: ActorId, cb: Callback)
    | Beat(actor: ActorId)
    | Act(actor: ActorId, answer: Answer)
    | Crash(actor: ActorId)
    | Cancel(actor: ActorId)
    | Tick(seconds: nat)
    | LoseLock(key: string)
    | LoseCache(key: string)
    | LoseGuard(checkout: string)

  function Initial(): State {
    State(Memory(map[], map[], {}, {}, [], [], 0), map[])
  }

  function Next(cfg: Config, s: State, l: Label): State {
    match l
    case Arrive(a, req) => Spawn(s, a, ReadCache(req))
    case Deliver(a, cb) => Spawn(s, a, TakeGuard(cb))
    case Beat(a) => Spawn(s, a, Select(s.mem.now - STALE_AFTER))
    case Act(a, answer) =>
      if a in s.actors then
        var step := Move(cfg, s.mem, s.actors[a], answer);
        State(step.mem, s.actors[a := step.actor])
      else s
    case Crash(a) => if a in s.actors && !Over(s.actors[a]) then s.(actors := s.actors[a := Crashed]) else s
    case Cancel(a) => if a in s.actors then s.(actors := s.actors[a := Unwound(s.actors[a])]) else s
    case _ => s.(mem := Drift(s.mem, l))
  }

  function Spawn(s: State, a: ActorId, start: Actor): State {
    if a in s.actors then s else s.(actors := s.actors[a := start])
  }

  /** Time passes, and keys expire or are evicted. */
  function Drift(m: Memory, l: Label): Memory {
    match l
    case Tick(seconds) => m.(now := m.now + seconds)
    case LoseLock(key) => m.(locks := m.locks - {key})
    case LoseCache(key) => m.(cache := m.cache - {key})
    case LoseGuard(checkout) => m.(guards := m.guards - {checkout})
    case _ => m
  }

  predicate Over(x: Actor) {
    x.Finished? || x.CallbackEnded? || x.Crashed? || (x.Sweeping? && x.batch == [])
  }

  /** Cancellation: inside the `try` block the `finally` block still runs; in it, the outcome is lost. */
  function Unwound(x: Actor): Actor {
    if x.ReadCache? || x.TakeLock? || x.Release? then Finished(x.req, Raised(Interrupted))
    else if InTry(x) then Release(x.req, Raised(Interrupted))
    else if x.TakeGuard? || x.FindPayment? || x.ApplyOutcome? then CallbackEnded(x.cb, Errored)
    else if x.Select? || x.Sweeping? then Sweeping([])
    else x
  }

  predicate InTry(x: Actor) {
    x.LookUp? || x.Insert? || x.Call? || x.Attempt? || x.StoreIds? || x.RecordFailure? || x.FillCache?
  }

  /** One step of one actor: what it leaves in memory, and where it stands then. */
  datatype Step = Step(mem: Memory, actor: Actor)

  function Move(cfg: Config, m: Memory, x: Actor, answer: Answer): Step {
    match x
    case ReadCache(req) => StepReadCache(m, req, answer)
    case TakeLock(req) => StepTakeLock(m, req, answer)
    case LookUp(req) => StepLookUp(m, req, answer)
    case Insert(req, id) => StepInsert(m, req, id, answer)
    case Call(req, id) => StepCall(m, req, id, answer)
    case Attempt(req, id, used) => StepAttempt(cfg, m, req, id, used, answer)
    case StoreIds(req, id, checkout, merchant) => StepStoreIds(m, req, id, checkout, merchant, answer)
    case RecordFailure(req, id) => StepRecordFailure(m, req, id, answer)
    case FillCache(req, response) => StepFillCache(m, req, response, answer)
    case Release(req, outcome) => StepRelease(m, req, outcome, answer)
    case TakeGuard(cb) => StepTakeGuard(m, cb, answer)
    case FindPayment(cb) => StepFindPayment(m, cb, answer)
    case ApplyOutcome(cb, id) => StepApplyOutcome(m, cb, id, answer)
    case Select(cutoff) => StepSelect(m, cutoff, answer)
    case Sweeping(batch) => StepSweeping(cfg, m, batch, answer)
    case _ => Step(m, x)
  }

  // ----- Initiation -------------------------------------------------------------------------------

  function StepReadCache(m: Memory, req: Request, answer: Answer): Step {
    if !answer.Redis? then Step(m, ReadCache(req))
    else if answer.redis.Up? && req.key in m.cache then Step(m, Finished(req, Returned(m.cache[req.key])))
    else Step(m, TakeLock(req))
  }

  /** A Redis failure counts as "acquired", whether or not the command took effect. */
  function StepTakeLock(m: Memory, req: Request, answer: Answer): Step {
    if !answer.Redis? then Step(m, TakeLock(req))
    else if answer.redis.Up? && req.key in m.locks then Step(m, Finished(req, Raised(ConcurrentRequest)))
    else Step(if answer.redis.Down? then m else m.(locks := m.locks + {req.key}), LookUp(req))
  }

  predicate Terminal(status: Status) {
    status.Completed? || status.Failed? || status.Cancelled?
  }

  function TextOf(text: Option<string>): string {
    if text.Some? then text.value else ""
  }

  /** `_payment_to_response`. */
  function ToResponse(id: PaymentId, row: Payment): Response {
    Response(id, TextOf(row.checkout), TextOf(row.merchant), row.status)
  }

  function StepLookUp(m: Memory, req: Request, answer: Answer): Step {
    match answer
    case Found(id) =>
      if id in m.rows && m.rows[id].key == req.key && Terminal(m.rows[id].status)
      then Step(m, Release(req, Returned(ToResponse(id, m.rows[id]))))
      else Step(m, LookUp(req))
    case NotFound(newId) =>
      if forall p <- m.rows.Keys :: m.rows[p].key == req.key ==> !Terminal(m.rows[p].status)
      then Step(m, Insert(req, newId))
      else Step(m, LookUp(req))
    case Db(reply) => Step(m, if reply.DbOk? then LookUp(req) else Release(req, Raised(DatabaseError)))
    case _ => Step(m, LookUp(req))
  }

  function Anchor(req: Request, id: PaymentId, now: int): Write {
    Create(id, NewPayment(req.key, req.phone, req.amount, now))
  }

  function StepInsert(m: Memory, req: Request, id: PaymentId, answer: Answer): Step {
    if !answer.Db? then Step(m, Insert(req, id))
    else
      var w := Anchor(req, id, m.now);
      Step(m.(rows := Settle(m.rows, w, answer.db)),
           if Raises(m.rows, w, answer.db) then Release(req, Raised(DatabaseError)) else Call(req, id))
  }

  function StepCall(m: Memory, req: Request, id: PaymentId, answer: Answer): Step {
    var m1 := m.(log := m.log + [Initiated(id, req.key, req.phone, req.amount)]);
    match answer
    case CircuitClosed => Step(m1, Attempt(req, id, 0))
    case CircuitOpen => Step(m1, RecordFailure(req, id))
    case _ => Step(m, Call(req, id))
  }

  /** One attempt of the retry loop; a token may fail to come before anything is sent. */
  function StepAttempt(cfg: Config, m: Memory, req: Request, id: PaymentId, used: nat, answer: Answer): Step {
    var sent := m.(log := m.log + [Posted(id, req.key, req.phone, req.amount)]);
    match answer
    case Accepted(checkout, merchant) => Step(sent, StoreIds(req, id, checkout, merchant))
    case Rejected => Step(sent, RecordFailure(req, id))
    case Broken => Step(sent, Release(req, Raised(Escaped)))
    case Transient =>
      Step(sent, if used + 1 < cfg.attempts then Attempt(req, id, used + 1) else Release(req, Raised(Escaped)))
    case NoToken => Step(m, RecordFailure(req, id))
    case Unsent => Step(m, Release(req, Raised(Escaped)))
    case _ => Step(m, Attempt(req, id, used))
  }

  function StepStoreIds(m: Memory, req: Request, id: PaymentId, checkout: string, merchant: string,
                        answer: Answer): Step {
    if !answer.Db? then Step(m, StoreIds(req, id, checkout, merchant))
    else
      var w := UpdateDarajaIds(id, checkout, merchant);
      Step(m.(rows := Settle(m.rows, w, answer.db)),
           if Raises(m.rows, w, answer.db) then Release(req, Raised(DatabaseError))
           else FillCache(req, Response(id, checkout, merchant, Pending)))
  }

  function StepRecordFailure(m: Memory, req: Request, id: PaymentId, answer: Answer): Step {
    if !answer.Db? then Step(m, RecordFailure(req, id))
    else
      var w := MarkFailed(id, "Daraja API call failed before initiation", 1);
      Step(m.(rows := Settle(m.rows, w, answer.db)), Release(req, Raised(DarajaFailure)))
  }

  function StepFillCache(m: Memory, req: Request, response: Response, answer: Answer): Step {
    if !answer.Redis? then Step(m, FillCache(req, response))
    else
      Step(if answer.redis.Down? then m else m.(cache := m.cache[req.key := response]),
           Release(req, Returned(response)))
  }

  /** The `finally` block deletes the lock whoever holds it. */
  function StepRelease(m: Memory, req: Request, outcome: Outcome, answer: Answer): Step {
    if !answer.Redis? then Step(m, Release(req, outcome))
    else
      Step(if answer.redis.Down? then m else m.(locks := m.locks - {req.key}), Finished(req, outcome))
  }

  // ----- Callbacks --------------------------------------------------------------------------------

  function StepTakeGuard(m: Memory, cb: Callback, answer: Answer): Step {
    if !answer.Redis? then Step(m, TakeGuard(cb))
    else if answer.redis.Up? && cb.checkout in m.guards then Step(m, CallbackEnded(cb, Ignored))
    else
      var m1 := if answer.redis.Down? then m else m.(guards := m.guards + {cb.checkout});
      Step(m1.(admitted := m.admitted + [cb]), FindPayment(cb))
  }

  function StepFindPayment(m: Memory, cb: Callback, answer: Answer): Step {
    match answer
    case Found(id) =>
      if id in m.rows && m.rows[id].checkout == Some(cb.checkout)
      then Step(m, ApplyOutcome(cb, id))
      else Step(m, FindPayment(cb))
    case NotFound(_) =>
      if forall p <- m.rows.Keys :: m.rows[p].checkout != Some(cb.checkout)
      then Step(m, CallbackEnded(cb, Unmatched))
      else Step(m, FindPayment(cb))
    case Db(reply) => Step(m, if reply.DbOk? then FindPayment(cb) else CallbackEnded(cb, Errored))
    case _ => Step(m, FindPayment(cb))
  }

  /** The statement a callback issues for the payment it matched. */
  function CallbackWrite(cb: Callback, id: PaymentId): Write {
    if cb.code == 0 then MarkCompleted(id, cb.receipt, cb.amount, cb.paidAt)
    else MarkFailed(id, cb.description, cb.code)
  }

  function StepApplyOutcome(m: Memory, cb: Callback, id: PaymentId, answer: Answer): Step {
    if !answer.Db? then Step(m, ApplyOutcome(cb, id))
    else
      var w := CallbackWrite(cb, id);
      Step(m.(rows := Settle(m.rows, w, answer.db)),
           CallbackEnded(cb, if Raises(m.rows, w, answer.db) then Errored else Applied))
  }

  // ----- The sweep --------------------------------------------------------------------------------

  predicate Stale(row: Payment, cutoff: int) {
    row.status.Pending? && row.createdAt < cutoff
  }

  /** A result of the sweep's SELECT ... LIMIT 50: distinct stale rows, all of them unless the limit is reached. */
  predicate Selects(rows: Table, cutoff: int, ids: seq<PaymentId>) {
    && |ids| <= BATCH_LIMIT
    && (forall i, j :: 0 <= i < j < |ids| ==> ids[i] != ids[j])
    && (forall id <- ids :: id in rows && Stale(rows[id], cutoff))
    && (|ids| == BATCH_LIMIT || forall p <- rows.Keys :: Stale(rows[p], cutoff) ==> p in ids)
  }

  function Candidates(rows: Table, ids: seq<PaymentId>): seq<Candidate>
    requires forall id <- ids :: id in rows
  {
    seq(|ids|, i requires 0 <= i < |ids| => Candidate(ids[i], rows[ids[i]].receipt))
  }

  function StepSelect(m: Memory, cutoff: int, answer: Answer): Step {
    match answer
    case Batch(ids) =>
      if Selects(m.rows, cutoff, ids)
      then Step(m, Sweeping(Candidates(m.rows, ids)))
      else Step(m, Select(cutoff))
    case Db(reply) => Step(m, if reply.DbOk? then Select(cutoff) else Sweeping([]))
    case _ => Step(m, Select(cutoff))
  }

  /** A row that was read with a receipt is only queried, never written. */
  predicate Queried(c: Candidate) {
    c.receipt.Some? && c.receipt.value != ""
  }

  function StepSweeping(cfg: Config, m: Memory, batch: seq<Candidate>, answer: Answer): Step {
    if batch == [] || !answer.Db? then Step(m, Sweeping(batch))
    else if Queried(batch[0]) then Step(m, Sweeping(batch[1..]))
    else
      Step(m.(rows := Settle(m.rows, Expire(batch[0].id, cfg.sweepTestsStatus), answer.db)), Sweeping(batch[1..]))
  }

  // ----- Runs -------------------------------------------------------------------------------------

  function RunFrom(cfg: Config, s: State, ls: seq<Label>): State {
    if ls == [] then s else Next(cfg, RunFrom(cfg, s, ls[..|ls| - 1]), ls[|ls| - 1])
  }

  /** The state after a run from the empty system. */
  function Run(cfg: Config, ls: seq<Label>): State {
    RunFrom(cfg, Initial(), ls)
  }

  lemma RunExtends(cfg: Config, s: State, ls: seq<Label>, extended: seq<Label>, l: Label)
    requires extended == ls + [l]
    ensures RunFrom(cfg, s, extended) == Next(cfg, RunFrom(cfg, s, ls), l)
  {
    assert extended[..|ls|] == ls;
  }

  lemma {:induction false} RunAppends(cfg: Config, s: State, ls: seq<Label>, more: seq<Label>)
    ensures RunFrom(cfg, s, ls + more) == RunFrom(cfg, RunFrom(cfg, s, ls), more)
    decreases |more|
  {
    hide Next;
    if more == [] {
      assert ls + more == ls;
    } else {
      var n := |more| - 1;
      RunAppends(cfg, s, ls, more[..n]);
      RunExtends(cfg, s, ls + more[..n], ls + more, more[n]);
    }
  }

  /** A run given by the states it passes through. */
  lemma {:induction false} RunIsTrace(cfg: Config, states: seq<State>, ls: seq<Label>)
    requires |states| == |ls| + 1
    requires forall i :: 0 <= i < |ls| ==> states[i + 1] == Next(cfg, states[i], ls[i])
    ensures RunFrom(cfg, states[0], ls) == states[|ls|]
    decreases |ls|
  {
    hide Next;
    if ls != [] {
      var n := |ls| - 1;
      RunIsTrace(cfg, states[..n + 1], ls[..n]);
      assert states[n + 1] == Next(cfg, states[n], ls[n]);
    }
  }

  /** The actor that a label belongs to, if it belongs to one. */
  predicate By(l: Label, a: ActorId) {
    match l
    case Arrive(b, _) => b == a
    case Deliver(b, _) => b == a
    case Beat(b) => b == a
    case Act(b, _) => b == a
    case Crash(b) => b == a
    case Cancel(b) => b == a
    case _ => false
  }

  /** An actor moves only by its own labels. */
  lemma OthersLeave(cfg: Config, s: State, l: Label, a: ActorId)
    requires !By(l, a)
    ensures a in s.actors <==> a in Next(cfg, s, l).actors
    ensures a in s.actors ==> Next(cfg, s, l).actors[a] == s.actors[a]
  {
  }
}
