/**
 The lock per idempotency key. app/services/stk.py:10-12 promises that it keeps two workers from initiating
 one payment at the same time. It does as long as its key is not lost and Redis answers; an expired lock, or
 a Redis failure, lets a second worker in, and the first one's `finally` block then frees the second's lock.
 */
module LockExclusion {
  import opened Payments
  import opened StkProtocol
  import opened Scenarios

  /** Between taking the lock of `key` and having released it. */
  predicate Inside(x: Actor, key: string) {
    (InTry(x) || x.Release?) && x.req.key == key
  }

  /** The promise: no two workers are inside for one key. */
  ghost predicate Exclusive(s: State) {
    forall a, b, k :: a in s.actors && b in s.actors && Inside(s.actors[a], k) && Inside(s.actors[b], k) ==> a == b
  }

  lemma MoveInside(cfg: Config, m: Memory, x: Actor, answer: Answer, k: string)
    ensures
      var step := Move(cfg, m, x, answer);
      Inside(step.actor, k) ==>
        Inside(x, k) ||
        (x.TakeLock? && x.req.key == k && answer.Redis? && (answer.redis.Up? ==> k !in m.locks && k in step.mem.locks))
    ensures
      var step := Move(cfg, m, x, answer);
      k in m.locks && k !in step.mem.locks ==> Inside(x, k) && !Inside(step.actor, k)
    ensures
      x.TakeLock? && x.req.key == k && answer.Redis? && (answer.redis.Up? ==> k !in m.locks) ==>
        Inside(Move(cfg, m, x, answer).actor, k)
  {
    hide Settle, Payments.Raises;
  }

  // ----- When one label breaks the promise --------------------------------------------------------

  /** A worker is let past the lock while another one is inside: the lock is gone, or Redis fails. */
  predicate Intrudes(s: State, l: Label) {
    && l.Act? && l.actor in s.actors && s.actors[l.actor].TakeLock? && l.answer.Redis?
    && (l.answer.redis.Up? ==> s.actors[l.actor].req.key !in s.mem.locks)
    && exists a <- s.actors.Keys :: Inside(s.actors[a], s.actors[l.actor].req.key)
  }

  lemma ActExclusiveIff(cfg: Config, s: State, b: ActorId, answer: Answer)
    requires Exclusive(s) && b in s.actors
    ensures Exclusive(Next(cfg, s, Act(b, answer))) <==> !Intrudes(s, Act(b, answer))
  {
    hide Move, Inside;
    var s' := Next(cfg, s, Act(b, answer));
    var x, step := s.actors[b], Move(cfg, s.mem, s.actors[b], answer);
    assert s'.actors == s.actors[b := step.actor];
    WaitingIsOutside(x);
    if Intrudes(s, Act(b, answer)) {
      MoveInside(cfg, s.mem, x, answer, x.req.key);
      var a :| a in s.actors.Keys && Inside(s.actors[a], x.req.key);
      assert Inside(s'.actors[a], x.req.key) && Inside(s'.actors[b], x.req.key);
    } else {
      forall a, k | a in s'.actors && a != b && Inside(s'.actors[a], k)
        ensures !Inside(step.actor, k)
      {
        MoveInside(cfg, s.mem, x, answer, k);
      }
    }
  }

  lemma WaitingIsOutside(x: Actor)
    ensures x.TakeLock? ==> forall k :: !Inside(x, k)
  {
  }

  /** An actor that starts, stops, or goes on to the `finally` block. */
  lemma RestExclusive(s: State, a: ActorId, x: Actor)
    requires Exclusive(s) && forall k :: Inside(x, k) ==> a in s.actors && Inside(s.actors[a], k)
    ensures Exclusive(s.(actors := s.actors[a := x]))
  {
    hide Inside;
  }

  /** One label keeps the promise exactly when it does not let a second worker in. */
  lemma ExclusiveIff(cfg: Config, s: State, l: Label)
    requires Exclusive(s)
    ensures Exclusive(Next(cfg, s, l)) <==> !Intrudes(s, l)
  {
    hide Move, Exclusive, Drift;
    match l {
      case Act(b, answer) =>
        if b in s.actors {
          ActExclusiveIff(cfg, s, b, answer);
        }
      case Arrive(a, req) => RestExclusive(s, a, ReadCache(req));
      case Deliver(a, cb) => RestExclusive(s, a, TakeGuard(cb));
      case Beat(a) => RestExclusive(s, a, Select(s.mem.now - STALE_AFTER));
      case Crash(a) => RestExclusive(s, a, Crashed);
      case Cancel(a) =>
        if a in s.actors {
          RestExclusive(s, a, Unwound(s.actors[a]));
        }
      case _ => SameActors(s, s.(mem := Drift(s.mem, l)));
    }
  }

  lemma SameActors(s: State, s': State)
    requires Exclusive(s) && s'.actors == s.actors
    ensures Exclusive(s')
  {
  }

  /** In every run the promise has been kept all along exactly when nobody was let in beside another. */
  lemma {:induction false} ExclusiveAlongIff(cfg: Config, ls: seq<Label>)
    ensures (forall n :: 0 <= n <= |ls| ==> Exclusive(Run(cfg, ls[..n])))
       <==> (forall n :: 0 <= n < |ls| ==> !Intrudes(Run(cfg, ls[..n]), ls[n]))
    decreases |ls|
  {
    hide Next, Intrudes, Exclusive;
    if ls == [] {
      NobodyInside();
    } else {
      var n := |ls| - 1;
      ExclusiveAlongIff(cfg, ls[..n]);
      assert forall k :: 0 <= k <= n ==> ls[..n][..k] == ls[..k];
      assert ls[..|ls|] == ls;
      if Exclusive(Run(cfg, ls[..n])) {
        ExclusiveIff(cfg, Run(cfg, ls[..n]), ls[n]);
      }
    }
  }

  lemma NobodyInside()
    ensures Exclusive(Initial())
  {
  }

  // ----- When it is kept --------------------------------------------------------------------------

  /** Label `l` neither loses a lock nor has Redis fail a worker that takes one. */
  predicate LockKept(s: State, l: Label) {
    && !l.LoseLock?
    && (l.Act? && l.actor in s.actors && s.actors[l.actor].TakeLock? && l.answer.Redis? ==> l.answer.redis.Up?)
  }

  ghost predicate LocksKept(cfg: Config, ls: seq<Label>) {
    forall n :: 0 <= n < |ls| ==> LockKept(Run(cfg, ls[..n]), ls[n])
  }

  /** The lock of every worker inside is set. */
  ghost predicate Locked(s: State) {
    forall a, k :: a in s.actors && Inside(s.actors[a], k) ==> k in s.mem.locks
  }

  lemma LockedIsNotIntruded(s: State, l: Label)
    requires Locked(s) && LockKept(s, l)
    ensures !Intrudes(s, l)
  {
  }

  lemma ActKeepsLocked(cfg: Config, s: State, b: ActorId, answer: Answer)
    requires Exclusive(s) && Locked(s) && b in s.actors && LockKept(s, Act(b, answer))
    ensures Locked(Next(cfg, s, Act(b, answer)))
  {
    hide Move, Inside;
    var s' := Next(cfg, s, Act(b, answer));
    forall a, k | a in s'.actors && Inside(s'.actors[a], k)
      ensures k in s'.mem.locks
    {
      MoveInside(cfg, s.mem, s.actors[b], answer, k);
    }
  }

  lemma NextKeepsLocked(cfg: Config, s: State, l: Label)
    requires Exclusive(s) && Locked(s) && LockKept(s, l)
    ensures Locked(Next(cfg, s, l))
  {
    hide Move;
    if l.Act? {
      if l.actor in s.actors {
        ActKeepsLocked(cfg, s, l.actor, l.answer);
      }
    }
  }

  /**
   While locks are kept, in every run, crashes, cancellations and failed deletions included: at most one worker
   per key is inside, and the lock of its key is set.
   */
  lemma {:induction false} LockIsExclusive(cfg: Config, ls: seq<Label>)
    requires LocksKept(cfg, ls)
    ensures Exclusive(Run(cfg, ls)) && Locked(Run(cfg, ls))
    decreases |ls|
  {
    hide Next, Exclusive, Locked, LockKept, Intrudes;
    if ls == [] {
      NobodyInside();
      NobodyLocked();
    } else {
      var n := |ls| - 1;
      assert LocksKept(cfg, ls[..n]) by {
        assert forall k :: 0 <= k < n ==> ls[..n][..k] == ls[..k];
      }
      LockIsExclusive(cfg, ls[..n]);
      var s := Run(cfg, ls[..n]);
      assert LockKept(s, ls[n]);
      LockedIsNotIntruded(s, ls[n]);
      ExclusiveIff(cfg, s, ls[n]);
      NextKeepsLocked(cfg, s, ls[n]);
    }
  }

  lemma NobodyLocked()
    ensures Locked(Initial())
  {
  }

  // ----- When it is not ---------------------------------------------------------------------------

  function Entry(a: ActorId, req: Request): seq<Label> {
    [Arrive(a, req)] + Acts(a, [Redis(Up), Redis(Up)])
  }

  lemma Enters(cfg: Config, s: State, a: ActorId, req: Request)
    requires a !in s.actors && req.key !in s.mem.cache && req.key !in s.mem.locks
    ensures RunFrom(cfg, s, Entry(a, req))
         == State(s.mem.(locks := s.mem.locks + {req.key}), s.actors[a := LookUp(req)])
  {
    var locked := s.mem.(locks := s.mem.locks + {req.key});
    ArrivalAndCourse(cfg, s, Arrive(a, req), a, ReadCache(req), [Redis(Up), Redis(Up)],
                     [Step(s.mem, ReadCache(req)), Step(s.mem, TakeLock(req)), Step(locked, LookUp(req))]);
  }

  /** A worker whose lookup fails runs its `finally` block. */
  lemma Leaves(cfg: Config, s: State, a: ActorId, req: Request)
    requires a in s.actors && s.actors[a] == LookUp(req)
    ensures RunFrom(cfg, s, Acts(a, [Db(DbDown), Redis(Up)]))
         == State(s.mem.(locks := s.mem.locks - {req.key}), s.actors[a := Finished(req, Raised(DatabaseError))])
  {
    var freed := s.mem.(locks := s.mem.locks - {req.key});
    Course(cfg, s, a, [Db(DbDown), Redis(Up)],
           [Step(s.mem, LookUp(req)), Step(s.mem, Release(req, Raised(DatabaseError))),
            Step(freed, Finished(req, Raised(DatabaseError)))]);
  }

  /** Worker 0's lock expires, worker 1 takes it ... */
  function Expiry(r: Request, q: Request): seq<Label> {
    Entry(0, r) + [LoseLock(r.key)] + Entry(1, q)
  }

  /** ... worker 0 returns and frees it, worker 2 takes it. */
  function Succession(r: Request, q: Request, t: Request): seq<Label> {
    Expiry(r, q) + Acts(0, [Db(DbDown), Redis(Up)]) + Entry(2, t)
  }

  lemma ExpiryLetsIn(cfg: Config, r: Request, q: Request)
    requires r.key == q.key
    ensures Run(cfg, Expiry(r, q)) == State(Initial().mem.(locks := {r.key}), map[0 := LookUp(r), 1 := LookUp(q)])
  {
    hide RunFrom, Next;
    var entered := Entry(0, r);
    var lost := entered + [LoseLock(r.key)];
    Enters(cfg, Initial(), 0, r);
    RunExtends(cfg, Initial(), entered, lost, LoseLock(r.key));
    assert Run(cfg, lost) == State(Initial().mem, map[0 := LookUp(r)]) by {
      LostLock(cfg, Run(cfg, entered), r.key);
    }
    Enters(cfg, Run(cfg, lost), 1, q);
    RunAppends(cfg, Initial(), lost, Entry(1, q));
  }

  lemma LostLock(cfg: Config, s: State, key: string)
    ensures Next(cfg, s, LoseLock(key)) == s.(mem := s.mem.(locks := s.mem.locks - {key}))
  {
  }

  /**
   For every three requests with one key there is a run in which the lock expires once: two workers are inside
   at the same time, and after the first one's `finally` block has freed the second's lock, two are again.
   */
  lemma LockIsNotExclusive(cfg: Config, r: Request, q: Request, t: Request)
    requires r.key == q.key == t.key
    ensures
      var s := Run(cfg, Expiry(r, q));
      && 0 in s.actors && 1 in s.actors && Inside(s.actors[0], r.key) && Inside(s.actors[1], r.key)
    ensures
      var s := Run(cfg, Succession(r, q, t));
      && 1 in s.actors && 2 in s.actors && Inside(s.actors[1], r.key) && Inside(s.actors[2], r.key)
  {
    hide RunFrom, Next;
    var expired := Expiry(r, q);
    var freed := expired + Acts(0, [Db(DbDown), Redis(Up)]);
    ExpiryLetsIn(cfg, r, q);
    Leaves(cfg, Run(cfg, expired), 0, r);
    RunAppends(cfg, Initial(), expired, Acts(0, [Db(DbDown), Redis(Up)]));
    Enters(cfg, Run(cfg, freed), 2, t);
    RunAppends(cfg, Initial(), freed, Entry(2, t));
  }
}
