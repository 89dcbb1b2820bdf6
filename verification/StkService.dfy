/**
 The service objects of app/services/stk.py and the sweep of app/tasks/reconciliation_tasks.py, as
 methods that update one database and one Redis in place while every other actor is free to move at every
 await. Each method is one actor of the protocol: whatever it does is recorded as a label, and the record
 is accepted only if the label does to the shared memory what the method did. So every return is a point
 of a run, and what holds of every run holds there.
 */
module StkService {
  import opened Basics
  import opened Payments
  import opened StkProtocol
  import opened StkInvariant
  import opened Idempotency
  import opened Lifecycle
  import opened Columns
  import opened PaymentAge
  import opened Endings

  /** The three families of Redis keys; `reply` is what the server does with the command. */
  class RedisStore {
    var cache: map<string, Response>
    var locks: set<string>
    var guards: set<string>

    constructor ()
      ensures cache == map[] && locks == {} && guards == {}
    {
      cache, locks, guards := map[], {}, {};
    }

    /** `_redis_get`: a failure reads as a miss. */
    method Get(key: string, reply: RedisReply) returns (value: Option<Response>)
      ensures value == if reply.Up? && key in cache then Some(cache[key]) else None
    {
      return if reply.Up? && key in cache then Some(cache[key]) else None;
    }

    /** `_redis_set_nx` on a lock: a failure counts as acquired. */
    method SetLock(key: string, reply: RedisReply) returns (acquired: bool)
      modifies this`locks
      ensures acquired == (!reply.Up? || key !in old(locks))
      ensures locks == if reply.Down? then old(locks) else old(locks) + {key}
    {
      acquired := !reply.Up? || key !in locks;
      if !reply.Down? {
        locks := locks + {key};
      }
    }

    /** `_redis_set_nx` on a callback guard. */
    method SetGuard(key: string, reply: RedisReply) returns (first: bool)
      modifies this`guards
      ensures first == (!reply.Up? || key !in old(guards))
      ensures guards == if reply.Down? then old(guards) else old(guards) + {key}
    {
      first := !reply.Up? || key !in guards;
      if !reply.Down? {
        guards := guards + {key};
      }
    }

    /** `_redis_setex` */
    method SetCache(key: string, value: Response, reply: RedisReply)
      modifies this`cache
      ensures cache == if reply.Down? then old(cache) else old(cache)[key := value]
    {
      if !reply.Down? {
        cache := cache[key := value];
      }
    }

    /** `_redis_delete` */
    method DeleteLock(key: string, reply: RedisReply)
      modifies this`locks
      ensures locks == if reply.Down? then old(locks) else old(locks) - {key}
    {
      if !reply.Down? {
        locks := locks - {key};
      }
    }
  }

  /** Everything the workers share, and the run that led here. */
  class Platform {
    const cfg: Config
    const db: Database
    const redis: RedisStore
    var log: seq<Event>
    var admitted: seq<Callback>
    var now: int
    var actors: map<ActorId, Actor>
    var history: seq<Label>

    function Shared(): Memory
      reads this, db, redis
    {
      Memory(db.rows, redis.cache, redis.locks, redis.guards, log, admitted, now)
    }

    function Contents(): State
      reads this, db, redis
    {
      State(Shared(), actors)
    }

    ghost predicate Valid()
      reads this, db, redis
    {
      Sane(cfg) && Contents() == Run(cfg, history)
    }

    constructor (cfg: Config)
      requires Sane(cfg)
      ensures Valid() && this.cfg == cfg && fresh(db) && fresh(redis)
    {
      this.cfg := cfg;
      db := new Database();
      redis := new RedisStore();
      log, admitted, now, actors, history := [], [], 0, map[], [];
    }

    /** A request, a callback or a beat arrives and becomes an actor. */
    method Admit(l: Label) returns (me: ActorId)
      requires Valid() && (l.Arrive? || l.Deliver? || l.Beat?) && l.actor !in actors
      modifies this`actors, this`history
      ensures Valid() && me == l.actor && history == old(history) + [l]
      ensures actors == Next(cfg, old(Contents()), l).actors
    {
      hide RunFrom;
      RunExtends(cfg, Initial(), history, history + [l], l);
      actors := Next(cfg, Contents(), l).actors;
      history := history + [l];
      return l.actor;
    }

    /** Any number of steps of the other actors, of the clock and of key expiry. */
    method Await(me: ActorId)
      requires Valid() && me in actors
      modifies this, db, redis
      ensures Valid() && me in actors && actors[me] == old(actors)[me] && old(history) <= history
    {
      hide Next, RunFrom;
      var others: seq<Label> := *;
      for i := 0 to |others|
        invariant Valid() && me in actors && actors[me] == old(actors)[me] && old(history) <= history
      {
        if !By(others[i], me) {
          OthersLeave(cfg, Contents(), others[i], me);
          RunExtends(cfg, Initial(), history, history + [others[i]], others[i]);
          var s := Next(cfg, Contents(), others[i]);
          db.rows, redis.cache, redis.locks, redis.guards := s.mem.rows, s.mem.cache, s.mem.locks, s.mem.guards;
          log, admitted, now, actors := s.mem.log, s.mem.admitted, s.mem.now, s.actors;
          history := history + [others[i]];
        }
      }
    }

    /** Records what `me` just did to the shared memory: it must be a step of the protocol. */
    method Record(me: ActorId, answer: Answer)
      requires Sane(cfg) && me in actors
      requires actors == Run(cfg, history).actors
      requires Shared() == Move(cfg, Run(cfg, history).mem, actors[me], answer).mem
      modifies this`actors, this`history
      ensures Valid() && history == old(history) + [Act(me, answer)]
      ensures actors == old(actors)[me := Move(cfg, old(Run(cfg, history)).mem, old(actors)[me], answer).actor]
      ensures Shared() == old(Shared())
    {
      hide RunFrom, Move;
      RunExtends(cfg, Initial(), history, history + [Act(me, answer)], Act(me, answer));
      actors := actors[me := Move(cfg, Run(cfg, history).mem, actors[me], answer).actor];
      history := history + [Act(me, answer)];
    }
  }

  /** How a call of Daraja ends for the service. */
  datatype DarajaResult = Ids(checkout: string, merchant: string) | DarajaRaised | OtherRaised

  /** SELECT ... LIMIT 50: some stale rows, all of them unless the limit is reached. */
  method SelectStale(rows: Table, cutoff: int) returns (ids: seq<PaymentId>)
    ensures Selects(rows, cutoff, ids)
  {
    ids := [];
    var rest := rows.Keys;
    while rest != {} && |ids| < BATCH_LIMIT
      invariant rest <= rows.Keys && |ids| <= BATCH_LIMIT
      invariant forall i, j :: 0 <= i < j < |ids| ==> ids[i] != ids[j]
      invariant forall id :: id in ids ==> id in rows && id !in rest && Stale(rows[id], cutoff)
      invariant forall p :: p in rows && Stale(rows[p], cutoff) ==> p in rest || p in ids
    {
      var p :| p in rest;
      rest := rest - {p};
      if Stale(rows[p], cutoff) {
        ids := ids + [p];
      }
    }
  }

  /** Where an initiation goes on after its call of Daraja. */
  function Reached(req: Request, id: PaymentId, result: DarajaResult): Actor {
    match result
    case Ids(checkout, merchant) => StoreIds(req, id, checkout, merchant)
    case DarajaRaised => RecordFailure(req, id)
    case OtherRaised => Release(req, Raised(Escaped))
  }

  /** What an answer means to the service, when it is the last one. */
  function Read(answer: Answer): DarajaResult {
    match answer
    case Accepted(checkout, merchant) => Ids(checkout, merchant)
    case Rejected => DarajaRaised
    case NoToken => DarajaRaised
    case _ => OtherRaised
  }

  /** One service object, with the database session of its own. */
  class STKService {
    const world: Platform
    const repo: PaymentRepository

    constructor (world: Platform)
      ensures this.world == world && repo.db == world.db && fresh(repo)
    {
      this.world := world;
      repo := new PaymentRepository(world.db);
    }

    /** The run so far has brought actor `me` to `x`. */
    ghost predicate At(me: ActorId, x: Actor)
      reads this, world, world.db, world.redis
    {
      repo.db == world.db && world.Valid() && me in world.actors && world.actors[me] == x
    }

    // ----- Initiation -----------------------------------------------------------------------------

    /** The row that anchors the request is committed before Daraja is called. */
    method CreatePending(me: ActorId, req: Request, id: PaymentId) returns (raised: bool)
      requires At(me, Insert(req, id))
      modifies world, world.db, world.redis, repo
      ensures old(world.history) <= world.history
      ensures At(me, if raised then Release(req, Raised(DatabaseError)) else Call(req, id))
      ensures !raised ==> id in world.db.rows && StandsFor(world.db.rows[id], req, world.now)
    {
      hide Run, Settle, Payments.Raises, StandsFor;
      world.Await(me);
      var reply: DbReply := *;
      ghost var rows := world.db.rows;
      repo.Create(id, NewPayment(req.key, req.phone, req.amount, world.now));
      raised := repo.Commit(reply);
      if raised {
        repo.Rollback();
      } else {
        CommittedStands(rows, req, id, world.now, reply);
      }
      world.Record(me, Db(reply));
    }

    /** One request goes out, and is answered. */
    method Post(me: ActorId, req: Request, id: PaymentId, used: nat, answer: Answer)
      requires At(me, Attempt(req, id, used))
      requires answer.Accepted? || answer.Rejected? || answer.Broken? || answer.Transient?
      modifies world
      ensures old(world.history) <= world.history
      ensures At(me, if answer.Transient? && used + 1 < world.cfg.attempts then Attempt(req, id, used + 1)
                     else Reached(req, id, Read(answer)))
    {
      hide Run;
      world.log := world.log + [Posted(id, req.key, req.phone, req.amount)];
      world.Record(me, answer);
    }

    /** One attempt: the token may not come, the request may be answered, fail for good, or fail for now. */
    method SendOnce(me: ActorId, req: Request, id: PaymentId, used: nat) returns (result: Option<DarajaResult>)
      requires At(me, Attempt(req, id, used))
      modifies world, world.db, world.redis
      ensures old(world.history) <= world.history
      ensures At(me, if result.Some? then Reached(req, id, result.value)
                     else if used + 1 < world.cfg.attempts then Attempt(req, id, used + 1)
                     else Release(req, Raised(Escaped)))
    {
      hide Run;
      world.Await(me);
      var answer: Answer := *;
      if answer.NoToken? || answer.Unsent? {
        world.Record(me, answer);
        return Some(Read(answer));
      }
      if !(answer.Accepted? || answer.Rejected? || answer.Broken?) {
        Post(me, req, id, used, Transient);
        return None;
      }
      Post(me, req, id, used, answer);
      return Some(Read(answer));
    }

    /** The client's circuit check and retry loop: a request is sent at most `attempts` times. */
    method Initiate(me: ActorId, req: Request, id: PaymentId) returns (result: DarajaResult)
      requires At(me, Call(req, id))
      modifies world, world.db, world.redis
      ensures old(world.history) <= world.history
      ensures At(me, Reached(req, id, result))
    {
      hide Run;
      world.Await(me);
      world.log := world.log + [Initiated(id, req.key, req.phone, req.amount)];
      var open: bool := *;
      if open {
        world.Record(me, CircuitOpen);
        return DarajaRaised;
      }
      world.Record(me, CircuitClosed);
      for used := 0 to world.cfg.attempts
        invariant old(world.history) <= world.history
        invariant At(me, if used < world.cfg.attempts then Attempt(req, id, used) else Release(req, Raised(Escaped)))
      {
        var done := SendOnce(me, req, id, used);
        if done.Some? {
          return done.value;
        }
      }
      return OtherRaised;
    }

    /** After a Daraja error the payment is marked failed; a failure to do so is swallowed. */
    method MarkNotInitiated(me: ActorId, req: Request, id: PaymentId) returns (marked: bool)
      requires At(me, RecordFailure(req, id))
      modifies world, world.db, world.redis, repo
      ensures old(world.history) <= world.history
      ensures At(me, Release(req, Raised(DarajaFailure)))
      ensures marked ==>
                id in world.db.rows && world.db.rows[id].status == Failed && world.db.rows[id].resultCode == Some(1) &&
                world.db.rows[id].failureReason == Some("Daraja API call failed before initiation")
    {
      hide Run, Inv, Settle, Payments.Raises;
      world.Await(me);
      HeldRow(world.cfg, world.history, me);
      var reply: DbReply := *;
      ghost var rows := world.db.rows;
      repo.MarkFailed(id, "Daraja API call failed before initiation", 1);
      var raised := repo.Commit(reply);
      marked := !raised;
      if marked {
        MarkedFailed(rows, id, reply);
      } else {
        repo.Rollback();
      }
      world.Record(me, Db(reply));
    }

    /** Daraja's ids are stored, and the response is built from them. */
    method PersistIds(me: ActorId, req: Request, id: PaymentId, checkout: string, merchant: string)
      returns (raised: bool)
      requires At(me, StoreIds(req, id, checkout, merchant))
      modifies world, world.db, world.redis, repo
      ensures old(world.history) <= world.history
      ensures At(me, if raised then Release(req, Raised(DatabaseError))
                     else FillCache(req, Response(id, checkout, merchant, Pending)))
      ensures !raised ==>
                id in world.db.rows && world.db.rows[id].checkout == Some(checkout) &&
                world.db.rows[id].merchant == Some(merchant)
    {
      hide Run, Inv, Settle, Payments.Raises;
      world.Await(me);
      HeldRow(world.cfg, world.history, me);
      var reply: DbReply := *;
      ghost var rows := world.db.rows;
      repo.UpdateDarajaIds(id, checkout, merchant);
      raised := repo.Commit(reply);
      if raised {
        repo.Rollback();
      } else {
        StoredIsFirstHand(rows, id, checkout, merchant, reply);
      }
      world.Record(me, Db(reply));
    }

    /** The database lookup behind a cold cache; `Insert` is where a new payment gets its UUID. */
    method FindExisting(me: ActorId, req: Request) returns (outcome: Option<Outcome>, id: PaymentId)
      requires At(me, LookUp(req))
      modifies world, world.db, world.redis
      ensures old(world.history) <= world.history
      ensures At(me, if outcome.Some? then Release(req, outcome.value) else Insert(req, id))
      ensures outcome.Some? && outcome.value.Returned? ==>
                id in world.db.rows && world.db.rows[id].key == req.key && !world.db.rows[id].status.Pending? &&
                TellsOf(outcome.value.response, id, world.db.rows[id])
      ensures outcome.None? ==>
                forall p :: p in world.db.rows && world.db.rows[p].key == req.key ==> world.db.rows[p].status.Pending?
    {
      hide Run, Inv;
      id := 0;
      world.Await(me);
      var raised: bool := *;
      if raised {
        world.Record(me, Db(DbDown));
        return Some(Raised(DatabaseError)), id;
      }
      var found := repo.GetByIdempotencyKey(req.key);
      if found.Some? && Terminal(world.db.rows[found.value].status) {
        id := found.value;
        outcome := Some(Returned(ToResponse(id, world.db.rows[id])));
        world.Record(me, Found(id));
        return;
      }
      id := *;
      InvAlways(world.cfg, world.history);
      KeysAreUnique(world.cfg, Run(world.cfg, world.history));
      NothingIsReversed(world.cfg, Run(world.cfg, world.history));
      world.Record(me, NotFound(id));
      return None, id;
    }

    method CacheResponse(me: ActorId, req: Request, response: Response)
      requires At(me, FillCache(req, response))
      modifies world, world.db, world.redis
      ensures old(world.history) <= world.history
      ensures At(me, Release(req, Returned(response)))
    {
      hide Run;
      world.Await(me);
      var reply: RedisReply := *;
      world.redis.SetCache(req.key, response, reply);
      world.Record(me, Redis(reply));
    }

    /** The `try` block: everything between taking the lock and the `finally` block. */
    method WithLock(me: ActorId, req: Request) returns (outcome: Outcome)
      requires At(me, LookUp(req))
      modifies world, world.db, world.redis, repo
      ensures old(world.history) <= world.history
      ensures At(me, Release(req, outcome))
    {
      hide Run, Move, At;
      var existing, id := FindExisting(me, req);
      if existing.Some? {
        return existing.value;
      }
      var refused := CreatePending(me, req, id);
      if refused {
        return Raised(DatabaseError);
      }
      var daraja := Initiate(me, req, id);
      match daraja {
        case DarajaRaised =>
          var _ := MarkNotInitiated(me, req, id);
          return Raised(DarajaFailure);
        case OtherRaised =>
          return Raised(Escaped);
        case Ids(checkout, merchant) =>
          var failed := PersistIds(me, req, id, checkout, merchant);
          if failed {
            return Raised(DatabaseError);
          }
          CacheResponse(me, req, Response(id, checkout, merchant, Pending));
          return Returned(Response(id, checkout, merchant, Pending));
      }
    }

    method ReadFastPath(me: ActorId, req: Request) returns (cached: Option<Response>)
      requires At(me, ReadCache(req))
      modifies world, world.db, world.redis
      ensures old(world.history) <= world.history
      ensures At(me, if cached.Some? then Finished(req, Returned(cached.value)) else TakeLock(req))
    {
      hide Run;
      world.Await(me);
      var reply: RedisReply := *;
      cached := world.redis.Get(req.key, reply);
      world.Record(me, Redis(reply));
    }

    method AcquireLock(me: ActorId, req: Request) returns (acquired: bool)
      requires At(me, TakeLock(req))
      modifies world, world.db, world.redis
      ensures old(world.history) <= world.history
      ensures At(me, if acquired then LookUp(req) else Finished(req, Raised(ConcurrentRequest)))
    {
      hide Run;
      world.Await(me);
      var reply: RedisReply := *;
      acquired := world.redis.SetLock(req.key, reply);
      world.Record(me, Redis(reply));
    }

    /** The `finally` block. */
    method ReleaseLock(me: ActorId, req: Request, outcome: Outcome)
      requires At(me, Release(req, outcome))
      modifies world, world.db, world.redis
      ensures old(world.history) <= world.history
      ensures At(me, Finished(req, outcome))
    {
      hide Run;
      world.Await(me);
      var reply: RedisReply := *;
      world.redis.DeleteLock(req.key, reply);
      world.Record(me, Redis(reply));
    }

    /**
     `initiate_stk_push`, with every other actor free to move at every await. It ends, as one actor of
     the protocol; whatever it returns, or raises, the key was sent to Daraja by at most one initiation,
     and an answer names the committed row of the key with the ids stored in it.
     */
    method InitiateStkPush(me: ActorId, req: Request) returns (outcome: Outcome)
      requires At(me, ReadCache(req))
      modifies world, world.db, world.redis, repo
      ensures old(world.history) <= world.history
      ensures At(me, Finished(req, outcome))
      ensures Initiations(world.log, req.key) <= 1 && HttpPosts(world.log, req.key) <= world.cfg.attempts
      ensures outcome.Returned? ==> ResponseOk(world.db.rows, req.key, outcome.response)
      ensures Told(world.cfg, world.history, me)
      ensures EndedAsAnswered(world.cfg, world.history, me, outcome)
    {
      hide Run, Move, Initiations, HttpPosts, ResponseOk, Told, EndedAsAnswered;
      var cached := ReadFastPath(me, req);
      if cached.Some? {
        outcome := Returned(cached.value);
      } else {
        var acquired := AcquireLock(me, req);
        if !acquired {
          outcome := Raised(ConcurrentRequest);
        } else {
          outcome := WithLock(me, req);
          ReleaseLock(me, req, outcome);
        }
      }
      AtMostOneInitiation(world.cfg, world.history, req.key);
      if outcome.Returned? {
        FinishedAnswers(world.cfg, world.history, me);
      }
      AnswerTells(world.cfg, world.history, me);
      FinishedAsAnswered(world.cfg, world.history, me);
    }

    // ----- Callbacks ------------------------------------------------------------------------------

    method TakeCallbackGuard(me: ActorId, cb: Callback) returns (first: bool)
      requires At(me, TakeGuard(cb))
      modifies world, world.db, world.redis
      ensures old(world.history) <= world.history
      ensures At(me, if first then FindPayment(cb) else CallbackEnded(cb, Ignored))
      ensures !first ==> cb.checkout in world.redis.guards
    {
      hide Run;
      world.Await(me);
      var reply: RedisReply := *;
      first := world.redis.SetGuard(cb.checkout, reply);
      if first {
        world.admitted := world.admitted + [cb];
      }
      world.Record(me, Redis(reply));
    }

    method MatchPayment(me: ActorId, cb: Callback) returns (ending: Ending, id: PaymentId)
      requires At(me, FindPayment(cb))
      modifies world, world.db, world.redis
      ensures old(world.history) <= world.history
      ensures At(me, if ending.Applied? then ApplyOutcome(cb, id) else CallbackEnded(cb, ending))
      ensures !ending.Ignored?
      ensures ending.Unmatched? ==> forall p :: p in world.db.rows ==> world.db.rows[p].checkout != Some(cb.checkout)
    {
      hide Run;
      id := 0;
      world.Await(me);
      var raised: bool := *;
      if raised {
        world.Record(me, Db(DbDown));
        return Errored, id;
      }
      var found := repo.GetByCheckoutRequestId(cb.checkout);
      if found.None? {
        world.Record(me, NotFound(0));
        return Unmatched, id;
      }
      id := found.value;
      world.Record(me, Found(id));
      return Applied, id;
    }

    /** The outcome goes to the matched row in one transaction. */
    method ApplyToPayment(me: ActorId, cb: Callback, id: PaymentId) returns (ending: Ending)
      requires At(me, ApplyOutcome(cb, id))
      modifies world, world.db, world.redis, repo
      ensures old(world.history) <= world.history
      ensures At(me, CallbackEnded(cb, ending)) && (ending.Applied? || ending.Errored?)
      ensures ending.Applied? ==> id in world.db.rows && Shows(world.db.rows[id], cb)
    {
      hide Run, Inv, Settle, Raises, Shows, Updated;
      world.Await(me);
      MatchedRow(world.cfg, world.history, me);
      var reply: DbReply := *;
      ghost var rows := world.db.rows;
      if cb.code == 0 {
        repo.MarkCompleted(id, cb.receipt, cb.amount, cb.paidAt);
      } else {
        repo.MarkFailed(id, cb.description, cb.code);
      }
      var raised := repo.Commit(reply);
      if raised {
        repo.Rollback();
      }
      if !raised {
        AppliedShows(rows, cb, id, reply);
      }
      world.Record(me, Db(reply));
      return if raised then Errored else Applied;
    }

    /**
     `process_callback`, with every other actor free to move at every await. It ends, as one actor of the
     protocol, and its ending tells what it saw: a set guard, no payment, or its outcome in the matched row.
     */
    method ProcessCallback(me: ActorId, cb: Callback) returns (ending: Ending, id: PaymentId)
      requires At(me, TakeGuard(cb))
      modifies world, world.db, world.redis, repo
      ensures old(world.history) <= world.history
      ensures At(me, CallbackEnded(cb, ending))
      ensures ending.Ignored? ==> cb.checkout in world.redis.guards
      ensures ending.Unmatched? ==> forall p :: p in world.db.rows ==> world.db.rows[p].checkout != Some(cb.checkout)
      ensures ending.Applied? ==> id in world.db.rows && Shows(world.db.rows[id], cb)
      ensures CallbackAsAnswered(world.cfg, world.history, me, ending)
    {
      hide Run, Move, Shows, CallbackAsAnswered;
      var first := TakeCallbackGuard(me, cb);
      ending, id := Ignored, 0;
      if first {
        ending, id := MatchPayment(me, cb);
        if ending.Applied? {
          ending := ApplyToPayment(me, cb, id);
        }
      }
      CallbackEndsAsAnswered(world.cfg, world.history, me);
    }

    // ----- The sweep ------------------------------------------------------------------------------

    /** One row of the batch; an exception is logged and the loop goes on. */
    method ExpireOne(me: ActorId, batch: seq<Candidate>) returns (expired: bool)
      requires At(me, Sweeping(batch)) && batch != []
      modifies world, world.db, world.redis, repo
      ensures old(world.history) <= world.history
      ensures At(me, Sweeping(batch[1..]))
      ensures expired ==> batch[0].id in world.db.rows && !world.db.rows[batch[0].id].status.Pending?
      ensures expired && !world.cfg.sweepTestsStatus ==>
                var row := world.db.rows[batch[0].id];
                row.status == Failed && row.resultCode == Some(-99) &&
                row.failureReason == Some("No callback received within 10 mins")
      ensures OutOfTime(world.cfg, world.history, batch[0].id)
    {
      hide Run, Inv, Settle, Payments.Raises, OutOfTime;
      world.Await(me);
      SweptRow(world.cfg, world.history, me);
      var reply: DbReply := *;
      expired := false;
      ghost var rows := world.db.rows;
      if !Queried(batch[0]) {
        repo.Expire(batch[0].id, world.cfg.sweepTestsStatus);
        var raised := repo.Commit(reply);
        expired := !raised;
        if expired {
          ExpiryShows(rows, batch[0].id, world.cfg.sweepTestsStatus, reply);
        }
      }
      ghost var before := world.history;
      world.Record(me, Db(reply));
      SweptIsOutOfTime(world.cfg, before, me, Db(reply), world.history);
    }

    /** The SELECT; when it raises, the job ends with nothing done. */
    method SelectBatch(me: ActorId, cutoff: int) returns (batch: seq<Candidate>)
      requires At(me, Select(cutoff))
      modifies world, world.db, world.redis
      ensures old(world.history) <= world.history
      ensures At(me, Sweeping(batch)) && |batch| <= 50
    {
      hide Run, Selects;
      world.Await(me);
      var raised: bool := *;
      if raised {
        world.Record(me, Db(DbDown));
        return [];
      }
      var ids := SelectStale(world.db.rows, cutoff);
      SelectedRowsExist(world.db.rows, cutoff, ids);
      batch := Candidates(world.db.rows, ids);
      world.Record(me, Batch(ids));
    }

    /**
     `expire_stale_pending_payments`, with every other actor free to move at every await. When it ends,
     every row whose update it saw committed has left PENDING, whatever the others did meanwhile.
     */
    method ExpireStalePendingPayments(me: ActorId, cutoff: int) returns (expired: seq<PaymentId>)
      requires At(me, Select(cutoff))
      modifies world, world.db, world.redis, repo
      ensures old(world.history) <= world.history
      ensures At(me, Sweeping([])) && |expired| <= 50
      ensures HaveExpired(world.cfg, world.history, expired)
    {
      hide Run, Move, HaveExpired, OutOfTime;
      var batch := SelectBatch(me, cutoff);
      expired := [];
      NoneExpired(world.cfg, world.history);
      for i := 0 to |batch|
        invariant old(world.history) <= world.history
        invariant At(me, Sweeping(batch[i..])) && |expired| <= i
        invariant HaveExpired(world.cfg, world.history, expired)
      {
        ghost var before := world.history;
        var done := ExpireOne(me, batch[i..]);
        assert batch[i..][1..] == batch[i + 1..];
        StillExpired(world.cfg, before, world.history, expired);
        if done {
          OneMoreExpired(world.cfg, world.history, expired, batch[i].id);
          expired := expired + [batch[i].id];
        }
      }
    }
  }

  lemma MatchedRow(cfg: Config, ls: seq<Label>, a: ActorId)
    requires Sane(cfg) && a in Run(cfg, ls).actors && Run(cfg, ls).actors[a].ApplyOutcome?
    ensures
      var x := Run(cfg, ls).actors[a];
      x.id in Run(cfg, ls).mem.rows && Run(cfg, ls).mem.rows[x.id].checkout == Some(x.cb.checkout)
  {
    InvAlways(cfg, ls);
    assert ActorOk(cfg, Run(cfg, ls).mem, Run(cfg, ls).actors[a]);
  }

  /** A commit that raises nothing has left the new row. */
  lemma CommittedStands(rows: Table, req: Request, id: PaymentId, now: int, reply: DbReply)
    requires !Payments.Raises(rows, Write.Create(id, NewPayment(req.key, req.phone, req.amount, now)), reply)
    ensures
      var rows' := Settle(rows, Write.Create(id, NewPayment(req.key, req.phone, req.amount, now)), reply);
      id in rows' && StandsFor(rows'[id], req, now)
  {
  }

  lemma MarkedFailed(rows: Table, id: PaymentId, reply: DbReply)
    requires id in rows
    requires !Payments.Raises(rows, MarkFailed(id, "Daraja API call failed before initiation", 1), reply)
    ensures
      var rows' := Settle(rows, MarkFailed(id, "Daraja API call failed before initiation", 1), reply);
      id in rows' && FailedWith(rows[id], rows'[id], "Daraja API call failed before initiation", 1)
  {
  }

  lemma ExpiryShows(rows: Table, id: PaymentId, onlyPending: bool, reply: DbReply)
    requires id in rows && !Payments.Raises(rows, Expire(id, onlyPending), reply)
    ensures
      var rows' := Settle(rows, Expire(id, onlyPending), reply);
      && id in rows' && !rows'[id].status.Pending?
      && (!onlyPending ==> FailedWith(rows[id], rows'[id], "No callback received within 10 mins", -99))
  {
  }

  lemma HeldRow(cfg: Config, ls: seq<Label>, a: ActorId)
    requires Sane(cfg) && a in Run(cfg, ls).actors
    ensures
      var x := Run(cfg, ls).actors[a];
      x.RecordFailure? || x.StoreIds? ==> x.id in Run(cfg, ls).mem.rows
  {
    InvAlways(cfg, ls);
    assert ActorOk(cfg, Run(cfg, ls).mem, Run(cfg, ls).actors[a]);
  }

  lemma SweptRow(cfg: Config, ls: seq<Label>, a: ActorId)
    requires Sane(cfg) && a in Run(cfg, ls).actors
    requires Run(cfg, ls).actors[a].Sweeping? && Run(cfg, ls).actors[a].batch != []
    ensures Run(cfg, ls).actors[a].batch[0].id in Run(cfg, ls).mem.rows
  {
    InvAlways(cfg, ls);
    assert ActorOk(cfg, Run(cfg, ls).mem, Run(cfg, ls).actors[a]);
    assert Run(cfg, ls).actors[a].batch[0] in Run(cfg, ls).actors[a].batch;
  }

  lemma SelectedRowsExist(rows: Table, cutoff: int, ids: seq<PaymentId>)
    requires Selects(rows, cutoff, ids)
    ensures |ids| <= BATCH_LIMIT && forall id :: id in ids ==> id in rows
  {
  }

  /** These payments have left PENDING, and are more than ten minutes old. */
  ghost predicate HaveExpired(cfg: Config, ls: seq<Label>, ids: seq<PaymentId>) {
    forall p :: p in ids ==>
      p in Run(cfg, ls).mem.rows && !Run(cfg, ls).mem.rows[p].status.Pending? && OutOfTime(cfg, ls, p)
  }

  lemma NoneExpired(cfg: Config, ls: seq<Label>)
    ensures HaveExpired(cfg, ls, [])
  {
  }

  lemma OneMoreExpired(cfg: Config, ls: seq<Label>, ids: seq<PaymentId>, p: PaymentId)
    requires HaveExpired(cfg, ls, ids) && OutOfTime(cfg, ls, p)
    requires p in Run(cfg, ls).mem.rows && !Run(cfg, ls).mem.rows[p].status.Pending?
    ensures HaveExpired(cfg, ls, ids + [p])
  {
    hide Run, OutOfTime;
  }

  lemma StillExpired(cfg: Config, ls: seq<Label>, longer: seq<Label>, ids: seq<PaymentId>)
    requires Sane(cfg) && ls <= longer && HaveExpired(cfg, ls, ids)
    ensures HaveExpired(cfg, longer, ids)
  {
    hide Run, OutOfTime;
    assert longer == ls + longer[|ls|..];
    forall p | p in ids
      ensures p in Run(cfg, longer).mem.rows && !Run(cfg, longer).mem.rows[p].status.Pending?
      ensures OutOfTime(cfg, longer, p)
    {
      PendingIsNeverRegained(cfg, ls, longer[|ls|..], p);
      StaysOutOfTime(cfg, ls, longer, p);
    }
  }

  lemma KeysAreUnique(cfg: Config, s: State)
    requires Inv(cfg, s)
    ensures forall p, q :: p in s.mem.rows && q in s.mem.rows && s.mem.rows[p].key == s.mem.rows[q].key ==> p == q
  {
  }

  lemma NothingIsReversed(cfg: Config, s: State)
    requires Inv(cfg, s)
    ensures forall p :: p in s.mem.rows ==> !s.mem.rows[p].status.Reversed?
  {
    assert forall p :: p in s.mem.rows ==> RowOk(s.mem.rows[p]);
  }

  lemma FinishedAnswers(cfg: Config, ls: seq<Label>, a: ActorId)
    requires Sane(cfg) && Answered(Run(cfg, ls), a)
    ensures ResponseOk(Run(cfg, ls).mem.rows, Run(cfg, ls).actors[a].req.key, Run(cfg, ls).actors[a].outcome.response)
  {
    InvAlways(cfg, ls);
    var s := Run(cfg, ls);
    assert ActorOk(cfg, s.mem, s.actors[a]);
  }
}
