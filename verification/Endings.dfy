/**
 Why a call ends as it does: over every run, what an initiation raises and how a callback ends, told from what
 Redis, the database and Daraja answered it, and what calls leave behind in the log, in Redis and in the row.
 */
module Endings {
  import opened Basics
  import opened Payments
  import opened StkProtocol
  import opened StkInvariant
  import opened Columns
  import opened Idempotency

  // ----- What an initiation answers or raises -----------------------------------------------------

  /** The answer makes the initiation raise: a held lock, a failed or refused statement, or what Daraja says. */
  predicate Provokes(cfg: Config, m: Memory, x: Actor, answer: Answer, e: Error) {
    match x
    case TakeLock(req) => e == ConcurrentRequest && answer == Redis(Up) && req.key in m.locks
    case LookUp(_) => e == DatabaseError && answer in {Db(DbDown), Db(DbLost)}
    case Insert(req, id) =>
      e == DatabaseError && answer.Db? &&
      (answer.db in {DbDown, DbLost} || id in m.rows || req.amount <= 0 ||
       exists p <- m.rows.Keys :: m.rows[p].key == req.key)
    case Call(_, _) => e == DarajaFailure && answer == CircuitOpen
    case Attempt(_, _, used) =>
      (e == DarajaFailure && answer in {Rejected, NoToken}) ||
      (e == Escaped && (answer in {Broken, Unsent} || (answer == Transient && used + 1 >= cfg.attempts)))
    case StoreIds(_, id, checkout, _) =>
      e == DatabaseError && answer.Db? &&
      (answer.db in {DbDown, DbLost} || exists p <- m.rows.Keys :: p != id && m.rows[p].checkout == Some(checkout))
    case _ => false
  }

  /** The answer makes the initiation return `r`: a cached answer, a final row, or its own, cached or not. */
  predicate Yields(m: Memory, x: Actor, answer: Answer, r: Response) {
    match x
    case ReadCache(req) => answer == Redis(Up) && req.key in m.cache && m.cache[req.key] == r
    case LookUp(req) =>
      answer.Found? && answer.id in m.rows && m.rows[answer.id].key == req.key &&
      m.rows[answer.id].status in {Completed, Failed, Cancelled} && TellsOf(r, answer.id, m.rows[answer.id])
    case FillCache(_, response) => answer.Redis? && r == response
    case _ => false
  }

  /** The initiation comes to `o`, at once or once the failure is recorded and the lock released. */
  predicate ComesTo(x: Actor, o: Outcome) {
    match x
    case RecordFailure(_, _) => o == Raised(DarajaFailure)
    case Release(_, outcome) => outcome == o
    case Finished(_, outcome) => outcome == o
    case _ => false
  }

  /** Its statements are refused for a taken key or id, an amount that is not positive, or a taken checkout id. */
  lemma RefusedIff(cfg: Config, m: Memory, x: Actor, answer: Answer)
    requires (x.Insert? || x.StoreIds?) && answer.Db? && (x.StoreIds? ==> x.id in m.rows)
    ensures Payments.Raises(m.rows, Statement(cfg, m, x).value, answer.db) <==>
              Provokes(cfg, m, x, answer, DatabaseError)
  {
  }

  lemma MoveRaises(cfg: Config, m: Memory, x: Actor, answer: Answer, e: Error)
    requires x.StoreIds? ==> x.id in m.rows
    ensures ComesTo(Move(cfg, m, x, answer).actor, Raised(e)) <==>
              ComesTo(x, Raised(e)) || Provokes(cfg, m, x, answer, e)
  {
    hide Settle, Payments.Raises, ToResponse, NewPayment, Selects, Candidates;
    if (x.Insert? || x.StoreIds?) && answer.Db? {
      RefusedIff(cfg, m, x, answer);
    }
  }

  lemma MoveReturns(cfg: Config, m: Memory, x: Actor, answer: Answer, r: Response)
    ensures ComesTo(Move(cfg, m, x, answer).actor, Returned(r)) <==>
              ComesTo(x, Returned(r)) || Yields(m, x, answer, r)
  {
    hide Settle, Payments.Raises, NewPayment, Selects, Candidates;
  }

  lemma HasRow(cfg: Config, s: State, a: ActorId)
    requires Inv(cfg, s) && a in s.actors
    ensures s.actors[a].StoreIds? || s.actors[a].ApplyOutcome? ==> s.actors[a].id in s.mem.rows
  {
    assert ActorOk(cfg, s.mem, s.actors[a]);
  }

  /** It goes on to a row of its own only if the database has no final one with its key. */
  lemma InsertsOnlyIfNoneIsFinal(cfg: Config, ls: seq<Label>, a: ActorId, answer: Answer)
    requires Sane(cfg) && a in Run(cfg, ls).actors && Run(cfg, ls).actors[a].LookUp?
    requires Next(cfg, Run(cfg, ls), Act(a, answer)).actors[a].Insert?
    ensures
      var s := Run(cfg, ls);
      forall p :: p in s.mem.rows && s.mem.rows[p].key == s.actors[a].req.key ==> s.mem.rows[p].status.Pending?
  {
    InvAlways(cfg, ls);
    hide Run;
    assert forall p :: p in Run(cfg, ls).mem.rows ==> RowOk(Run(cfg, ls).mem.rows[p]);
  }

  // ----- How a callback ends ----------------------------------------------------------------------

  /** The answer ends the callback: a set guard, no payment, or what becomes of the transaction. */
  predicate Settles(m: Memory, x: Actor, answer: Answer, ending: Ending) {
    match x
    case TakeGuard(cb) => ending == Ignored && answer == Redis(Up) && cb.checkout in m.guards
    case FindPayment(cb) =>
      (ending == Errored && answer in {Db(DbDown), Db(DbLost)}) ||
      (ending == Unmatched && answer.NotFound? && forall p <- m.rows.Keys :: m.rows[p].checkout != Some(cb.checkout))
    case ApplyOutcome(cb, _) =>
      answer.Db? &&
      (var refused := cb.code == 0 && cb.amount.Some? && cb.amount.value < 0.0;
       ending == if answer.db == DbOk && !refused then Applied else Errored)
    case _ => false
  }

  predicate HasEnded(x: Actor, ending: Ending) {
    x.CallbackEnded? && x.ending == ending
  }

  lemma MoveEnds(cfg: Config, m: Memory, x: Actor, answer: Answer, ending: Ending)
    requires x.ApplyOutcome? ==> x.id in m.rows
    ensures HasEnded(Move(cfg, m, x, answer).actor, ending) <==> HasEnded(x, ending) || Settles(m, x, answer, ending)
  {
    hide Settle;
  }

  // ----- Facts of a run ---------------------------------------------------------------------------

  /** What can be read off a state: outcomes, endings, and the keys in Redis. */
  datatype Fact =
    | HasOutcome(a: ActorId, outcome: Outcome)
    | HasEnding(b: ActorId, ending: Ending)
    | LockSet(key: string)
    | GuardSet(checkout: string)
    | Cached(key: string, response: Response)

  ghost predicate Holds(s: State, f: Fact) {
    match f
    case HasOutcome(a, outcome) => a in s.actors && ComesTo(s.actors[a], outcome)
    case HasEnding(b, ending) => b in s.actors && HasEnded(s.actors[b], ending)
    case LockSet(key) => key in s.mem.locks
    case GuardSet(checkout) => checkout in s.mem.guards
    case Cached(key, response) => key in s.mem.cache && s.mem.cache[key] == response
  }

  /** An initiation that has not finished. */
  predicate Initiating(x: Actor) {
    x.ReadCache? || x.TakeLock? || BehindLock(x)
  }

  /** An initiation behind its lock: in the `try` block or its `finally` block. */
  predicate BehindLock(x: Actor) {
    x.LookUp? || x.Insert? || x.Call? || x.Attempt? || x.StoreIds? || x.RecordFailure? || x.FillCache? || x.Release?
  }

  predicate Processing(x: Actor) {
    x.TakeGuard? || x.FindPayment? || x.ApplyOutcome?
  }

  /** A Redis command took effect, seen or unseen, at a step of this actor. */
  predicate TookEffect(s: State, l: Label) {
    l.Act? && l.actor in s.actors && l.answer.Redis? && l.answer.redis in {Up, Lost}
  }

  /**
   The label brings it about: an answer decides the call, a cancellation interrupts it, a lock is taken, a guard is
   set by the first delivery, an answer is cached by its own initiation.
   */
  predicate Makes(cfg: Config, s: State, l: Label, f: Fact) {
    match f
    case HasOutcome(a, outcome) =>
      a in s.actors &&
      ((l.Act? && l.actor == a &&
        match outcome
        case Raised(e) => Provokes(cfg, s.mem, s.actors[a], l.answer, e)
        case Returned(r) => Yields(s.mem, s.actors[a], l.answer, r)) ||
       (l == Cancel(a) && Initiating(s.actors[a]) && outcome == Raised(Interrupted)))
    case HasEnding(b, ending) =>
      b in s.actors &&
      ((l.Act? && l.actor == b && Settles(s.mem, s.actors[b], l.answer, ending)) ||
       (l == Cancel(b) && Processing(s.actors[b]) && ending == Errored))
    case LockSet(key) => TookEffect(s, l) && s.actors[l.actor].TakeLock? && s.actors[l.actor].req.key == key
    case GuardSet(checkout) =>
      TookEffect(s, l) && s.actors[l.actor].TakeGuard? && s.actors[l.actor].cb.checkout == checkout
    case Cached(key, response) =>
      TookEffect(s, l) && s.actors[l.actor].FillCache? && s.actors[l.actor].req.key == key &&
      s.actors[l.actor].response == response
  }

  /**
   The label undoes it: before its lock is released an initiation can still be interrupted or die; a lock is deleted
   by whoever has its key, or lost; a guard and a cached answer are only ever lost, or cached anew.
   */
  predicate Breaks(s: State, l: Label, f: Fact) {
    match f
    case HasOutcome(a, _) => a in s.actors && l in {Cancel(a), Crash(a)} && Initiating(s.actors[a])
    case HasEnding(_, _) => false
    case LockSet(key) =>
      l == LoseLock(key) ||
      (TookEffect(s, l) && s.actors[l.actor].Release? && s.actors[l.actor].req.key == key)
    case GuardSet(checkout) => l == LoseGuard(checkout)
    case Cached(key, _) =>
      l == LoseCache(key) ||
      (TookEffect(s, l) && s.actors[l.actor].FillCache? && s.actors[l.actor].req.key == key)
  }

  predicate MadeAt(cfg: Config, ls: seq<Label>, n: nat, f: Fact) {
    n < |ls| && Makes(cfg, Run(cfg, ls[..n]), ls[n], f)
  }

  predicate BrokenAt(cfg: Config, ls: seq<Label>, n: nat, f: Fact) {
    n < |ls| && Breaks(Run(cfg, ls[..n]), ls[n], f)
  }

  ghost predicate UnbrokenSince(cfg: Config, ls: seq<Label>, n: nat, f: Fact) {
    forall k :: n < k < |ls| ==> !BrokenAt(cfg, ls, k, f)
  }

  /** It was made at some position of the run, and not broken since. */
  ghost predicate Stands(cfg: Config, ls: seq<Label>, f: Fact) {
    exists n :: MadeAt(cfg, ls, n, f) && UnbrokenSince(cfg, ls, n, f)
  }

  lemma OutcomeStep(cfg: Config, s: State, l: Label, f: Fact)
    requires Inv(cfg, s) && f.HasOutcome?
    ensures Holds(Next(cfg, s, l), f) <==> Makes(cfg, s, l, f) || (Holds(s, f) && !Breaks(s, l, f))
  {
    if !By(l, f.a) {
      OthersLeave(cfg, s, l, f.a);
    } else if l.Act? && f.a in s.actors {
      HasRow(cfg, s, f.a);
      hide Inv, Move, Provokes, Yields;
      match f.outcome {
        case Raised(e) => MoveRaises(cfg, s.mem, s.actors[f.a], l.answer, e);
        case Returned(r) => MoveReturns(cfg, s.mem, s.actors[f.a], l.answer, r);
      }
    }
  }

  lemma EndingStep(cfg: Config, s: State, l: Label, f: Fact)
    requires Inv(cfg, s) && f.HasEnding?
    ensures Holds(Next(cfg, s, l), f) <==> Makes(cfg, s, l, f) || (Holds(s, f) && !Breaks(s, l, f))
  {
    if !By(l, f.b) {
      OthersLeave(cfg, s, l, f.b);
    } else if l.Act? && f.b in s.actors {
      HasRow(cfg, s, f.b);
      hide Inv, Move, Settles;
      MoveEnds(cfg, s.mem, s.actors[f.b], l.answer, f.ending);
    }
  }

  /** What a step of an actor does to the three families of keys. */
  lemma MoveKeys(cfg: Config, m: Memory, x: Actor, answer: Answer)
    ensures
      var m', done := Move(cfg, m, x, answer).mem, answer.Redis? && answer.redis in {Up, Lost};
      && m'.locks == (if done && x.TakeLock? then m.locks + {x.req.key}
                      else if done && x.Release? then m.locks - {x.req.key} else m.locks)
      && m'.guards == (if done && x.TakeGuard? then m.guards + {x.cb.checkout} else m.guards)
      && m'.cache == (if done && x.FillCache? then m.cache[x.req.key := x.response] else m.cache)
  {
    hide Settle, Payments.Raises;
    assert forall k :: k in m.locks ==> m.locks + {k} == m.locks;
    assert forall c :: c in m.guards ==> m.guards + {c} == m.guards;
  }

  lemma KeyStep(cfg: Config, s: State, l: Label, f: Fact)
    requires f.LockSet? || f.GuardSet? || f.Cached?
    ensures Holds(Next(cfg, s, l), f) <==> Makes(cfg, s, l, f) || (Holds(s, f) && !Breaks(s, l, f))
  {
    hide Move;
    if l.Act? && l.actor in s.actors {
      MoveKeys(cfg, s.mem, s.actors[l.actor], l.answer);
    }
  }

  lemma FactStep(cfg: Config, s: State, l: Label, f: Fact)
    requires Inv(cfg, s)
    ensures Holds(Next(cfg, s, l), f) <==> Makes(cfg, s, l, f) || (Holds(s, f) && !Breaks(s, l, f))
  {
    hide Holds, Makes, Breaks, Next, Inv;
    match f {
      case HasOutcome(_, _) => OutcomeStep(cfg, s, l, f);
      case HasEnding(_, _) => EndingStep(cfg, s, l, f);
      case _ => KeyStep(cfg, s, l, f);
    }
  }

  lemma StandsStep(cfg: Config, ls: seq<Label>, f: Fact)
    requires ls != []
    ensures
      var m := |ls| - 1;
      Stands(cfg, ls, f) <==>
        Makes(cfg, Run(cfg, ls[..m]), ls[m], f) ||
        (Stands(cfg, ls[..m], f) && !Breaks(Run(cfg, ls[..m]), ls[m], f))
  {
    hide Makes, Breaks, Run;
    var m := |ls| - 1;
    assert forall k :: 0 <= k < m ==> ls[..m][..k] == ls[..k] && ls[..m][k] == ls[k];
    assert forall k :: 0 <= k < m ==> (BrokenAt(cfg, ls, k, f) <==> BrokenAt(cfg, ls[..m], k, f));
    if Makes(cfg, Run(cfg, ls[..m]), ls[m], f) {
      assert MadeAt(cfg, ls, m, f) && UnbrokenSince(cfg, ls, m, f);
    }
    if Stands(cfg, ls[..m], f) && !Breaks(Run(cfg, ls[..m]), ls[m], f) {
      var n: nat :| MadeAt(cfg, ls[..m], n, f) && UnbrokenSince(cfg, ls[..m], n, f);
      assert MadeAt(cfg, ls, n, f) && UnbrokenSince(cfg, ls, n, f);
    }
    if Stands(cfg, ls, f) {
      var n: nat :| MadeAt(cfg, ls, n, f) && UnbrokenSince(cfg, ls, n, f);
      if n < m {
        assert MadeAt(cfg, ls[..m], n, f) && UnbrokenSince(cfg, ls[..m], n, f) && !BrokenAt(cfg, ls, m, f);
      }
    }
  }

  /**
   In every run, each of these holds if and only if it was made and not broken since.

   So an initiation ends as it was answered, and comes to no other end. It raises: 409 for a held lock, a database
   error for a failed or refused statement, a DarajaError for an open circuit, a rejection or a missing token,
   whatever escapes for anything else that Daraja's client raises, and the interruption if it is cancelled. It
   returns: what the cache or a final row answered, or its own response, whether or not the cache took it. A callback
   ends ignored for a set guard, unmatched if no row has its checkout id, with an error if it is cancelled or the
   database fails or refuses its amount, and applied otherwise.
   */
  lemma {:induction false} FactIff(cfg: Config, ls: seq<Label>, f: Fact)
    requires Sane(cfg)
    ensures Holds(Run(cfg, ls), f) <==> Stands(cfg, ls, f)
    decreases |ls|
  {
    hide Next, Inv, Holds, Makes, Breaks, Stands;
    if ls == [] {
      NothingHolds(f);
      NothingStands(cfg, f);
    } else {
      var m := |ls| - 1;
      FactIff(cfg, ls[..m], f);
      InvAlways(cfg, ls[..m]);
      FactStep(cfg, Run(cfg, ls[..m]), ls[m], f);
      StandsStep(cfg, ls, f);
    }
  }

  lemma NothingHolds(f: Fact)
    ensures !Holds(Initial(), f)
  {
  }

  lemma NothingStands(cfg: Config, f: Fact)
    ensures !Stands(cfg, [], f)
  {
  }

  /** The outcome is what the answers made it, and they made no other. */
  ghost predicate EndedAsAnswered(cfg: Config, ls: seq<Label>, a: ActorId, outcome: Outcome) {
    forall o: Outcome :: Stands(cfg, ls, HasOutcome(a, o)) <==> outcome == o
  }

  lemma FinishedAsAnswered(cfg: Config, ls: seq<Label>, a: ActorId)
    requires Sane(cfg) && a in Run(cfg, ls).actors && Run(cfg, ls).actors[a].Finished?
    ensures EndedAsAnswered(cfg, ls, a, Run(cfg, ls).actors[a].outcome)
  {
    hide Run, Stands;
    forall o: Outcome
      ensures Stands(cfg, ls, HasOutcome(a, o)) <==> Run(cfg, ls).actors[a].outcome == o
    {
      FactIff(cfg, ls, HasOutcome(a, o));
    }
  }

  ghost predicate CallbackAsAnswered(cfg: Config, ls: seq<Label>, b: ActorId, ending: Ending) {
    forall e: Ending :: Stands(cfg, ls, HasEnding(b, e)) <==> ending == e
  }

  lemma CallbackEndsAsAnswered(cfg: Config, ls: seq<Label>, b: ActorId)
    requires Sane(cfg) && b in Run(cfg, ls).actors && Run(cfg, ls).actors[b].CallbackEnded?
    ensures CallbackAsAnswered(cfg, ls, b, Run(cfg, ls).actors[b].ending)
  {
    hide Run, Stands;
    forall e: Ending
      ensures Stands(cfg, ls, HasEnding(b, e)) <==> Run(cfg, ls).actors[b].ending == e
    {
      FactIff(cfg, ls, HasEnding(b, e));
    }
  }

  // ----- The `finally` block ----------------------------------------------------------------------

  /** At position `n` of the run, the `finally` block runs: the lock goes if Redis is up, or the await is cancelled. */
  predicate ReleasesAt(cfg: Config, ls: seq<Label>, n: nat, a: ActorId) {
    n < |ls| &&
    (var s := Run(cfg, ls[..n]);
     a in s.actors && s.actors[a].Release? &&
     (ls[n] == Cancel(a) || ls[n] == Act(a, Redis(Down)) ||
      (ls[n] in {Act(a, Redis(Up)), Act(a, Redis(Lost))} &&
       s.actors[a].req.key !in Run(cfg, ls[..n + 1]).mem.locks)))
  }

  /**
   Once past its lock, an initiation finishes only through the `finally` block, cancelled or not: whatever way it
   takes, the deletion of its lock is attempted. Only a worker that dies leaves without it.
   */
  lemma {:induction false} FinallyRuns(cfg: Config, ls: seq<Label>, more: seq<Label>, a: ActorId)
    requires a in Run(cfg, ls).actors && BehindLock(Run(cfg, ls).actors[a])
    ensures a in Run(cfg, ls + more).actors
    ensures
      var x := Run(cfg, ls + more).actors[a];
      BehindLock(x) || x.Crashed? ||
      (x.Finished? && exists n :: |ls| <= n < |ls + more| && ReleasesAt(cfg, ls + more, n, a))
    decreases |more|
  {
    hide Next;
    if more == [] {
      assert ls + more == ls;
    } else {
      var n := |more| - 1;
      var before, all := ls + more[..n], ls + more;
      FinallyRuns(cfg, ls, more[..n], a);
      RunExtends(cfg, Initial(), before, all, more[n]);
      assert all[..|before|] == before && all[..|before| + 1] == all;
      FinallyStep(cfg, Run(cfg, before), more[n], a);
      if Run(cfg, before).actors[a].Finished? {
        var k :| |ls| <= k < |before| && ReleasesAt(cfg, before, k, a);
        assert all[..k] == before[..k] && all[..k + 1] == before[..k + 1];
        assert ReleasesAt(cfg, all, k, a);
      } else if Run(cfg, all).actors[a].Finished? {
        assert ReleasesAt(cfg, all, |before|, a);
      }
    }
  }

  lemma FinallyStep(cfg: Config, s: State, l: Label, a: ActorId)
    requires a in s.actors
    ensures a in Next(cfg, s, l).actors
    ensures
      var x, s' := s.actors[a], Next(cfg, s, l);
      var x' := s'.actors[a];
      && (BehindLock(x) ==> BehindLock(x') || x'.Crashed? || x'.Finished?)
      && (x.Crashed? || x.Finished? ==> x' == x)
      && (BehindLock(x) && x'.Finished? ==>
            x.Release? &&
            (l == Cancel(a) || l == Act(a, Redis(Down)) ||
             (l in {Act(a, Redis(Up)), Act(a, Redis(Lost))} && x.req.key !in s'.mem.locks)))
  {
    hide Settle, Payments.Raises;
    if !By(l, a) {
      OthersLeave(cfg, s, l, a);
    }
  }

  // ----- Ended and dead ---------------------------------------------------------------------------

  /** A call that has ended, or died, stays as it is. */
  lemma {:induction false} EndIsFinal(cfg: Config, ls: seq<Label>, more: seq<Label>, a: ActorId)
    requires a in Run(cfg, ls).actors
    requires
      var x := Run(cfg, ls).actors[a];
      x.Finished? || x.CallbackEnded? || x == Crashed || x == Sweeping([])
    ensures a in Run(cfg, ls + more).actors && Run(cfg, ls + more).actors[a] == Run(cfg, ls).actors[a]
    decreases |more|
  {
    hide Next;
    if more == [] {
      assert ls + more == ls;
    } else {
      var n := |more| - 1;
      EndIsFinal(cfg, ls, more[..n], a);
      RunExtends(cfg, Initial(), ls + more[..n], ls + more, more[n]);
      EndedStep(cfg, Run(cfg, ls + more[..n]), more[n], a);
    }
  }

  lemma EndedStep(cfg: Config, s: State, l: Label, a: ActorId)
    requires a in s.actors
    requires
      var x := s.actors[a];
      x.Finished? || x.CallbackEnded? || x == Crashed || x == Sweeping([])
    ensures a in Next(cfg, s, l).actors && Next(cfg, s, l).actors[a] == s.actors[a]
  {
    if !By(l, a) {
      OthersLeave(cfg, s, l, a);
    }
  }

  /** A worker that dies stays dead; what it held in the table and in Redis is left to the others. */
  lemma DeadForGood(cfg: Config, ls: seq<Label>, more: seq<Label>, a: ActorId)
    requires a in Run(cfg, ls).actors
    requires
      var x := Run(cfg, ls).actors[a];
      !(x.Finished? || x.CallbackEnded? || x == Sweeping([]))
    ensures Run(cfg, ls + [Crash(a)]).mem == Run(cfg, ls).mem
    ensures
      var s := Run(cfg, ls + [Crash(a)] + more);
      a in s.actors && s.actors[a] == Crashed
  {
    RunExtends(cfg, Initial(), ls, ls + [Crash(a)], Crash(a));
    EndIsFinal(cfg, ls + [Crash(a)], more, a);
  }

  // ----- How a sweep ends -------------------------------------------------------------------------

  /** Nobody cancels the actor, and its worker does not die. */
  predicate Spared(ls: seq<Label>, a: ActorId) {
    forall n :: 0 <= n < |ls| ==> ls[n] != Cancel(a) && ls[n] != Crash(a)
  }

  /** How often the database has answered actor `a`. */
  function Turns(ls: seq<Label>, a: ActorId): nat {
    if ls == [] then 0
    else
      var n := |ls| - 1;
      Turns(ls[..n], a) + if ls[n].Act? && ls[n].actor == a && ls[n].answer.Db? then 1 else 0
  }

  /**
   Whatever the database does with one row, a sweep goes on to the next: unless it is cancelled or its worker dies,
   it has tried as many of its candidates as it was answered, in order, whatever the others do.
   */
  lemma {:induction false} SweepGoesOn(cfg: Config, ls: seq<Label>, more: seq<Label>, a: ActorId)
    requires a in Run(cfg, ls).actors && Run(cfg, ls).actors[a].Sweeping? && Spared(more, a)
    ensures a in Run(cfg, ls + more).actors
    ensures
      var batch, k := Run(cfg, ls).actors[a].batch, Turns(more, a);
      Run(cfg, ls + more).actors[a] == Sweeping(if k <= |batch| then batch[k..] else [])
    decreases |more|
  {
    hide Next;
    if more == [] {
      assert ls + more == ls;
    } else {
      var n := |more| - 1;
      SweepGoesOn(cfg, ls, more[..n], a);
      RunExtends(cfg, Initial(), ls + more[..n], ls + more, more[n]);
      SweepStep(cfg, Run(cfg, ls + more[..n]), more[n], a);
    }
  }

  lemma SweepStep(cfg: Config, s: State, l: Label, a: ActorId)
    requires a in s.actors && s.actors[a].Sweeping? && l != Cancel(a) && l != Crash(a)
    ensures a in Next(cfg, s, l).actors
    ensures
      var batch := s.actors[a].batch;
      Next(cfg, s, l).actors[a]
        == Sweeping(if l.Act? && l.actor == a && l.answer.Db? && batch != [] then batch[1..] else batch)
  {
    hide Settle;
    if !By(l, a) {
      OthersLeave(cfg, s, l, a);
    }
  }

  /** A SELECT that fails ends the sweep for good, and so does a cancellation at any point. */
  lemma SweepStops(cfg: Config, ls: seq<Label>, l: Label, more: seq<Label>, a: ActorId)
    requires a in Run(cfg, ls).actors && (Run(cfg, ls).actors[a].Select? || Run(cfg, ls).actors[a].Sweeping?)
    requires l == Cancel(a) || (Run(cfg, ls).actors[a].Select? && l in {Act(a, Db(DbDown)), Act(a, Db(DbLost))})
    ensures Run(cfg, ls + [l]).mem == Run(cfg, ls).mem
    ensures
      var s := Run(cfg, ls + [l] + more);
      a in s.actors && s.actors[a] == Sweeping([])
  {
    RunExtends(cfg, Initial(), ls, ls + [l], l);
    EndIsFinal(cfg, ls + [l], more, a);
  }

  // ----- What a call leaves behind ----------------------------------------------------------------

  /** What the step makes Daraja's client do: one circuit check per call, one request per attempt that has a token. */
  function CallsOf(s: State, l: Label): seq<Event> {
    if l.Act? && l.actor in s.actors then
      match s.actors[l.actor]
      case Call(req, id) =>
        if l.answer in {CircuitClosed, CircuitOpen} then [Initiated(id, req.key, req.phone, req.amount)] else []
      case Attempt(req, id, _) =>
        if l.answer.Accepted? || l.answer in {Rejected, Transient, Broken}
        then [Posted(id, req.key, req.phone, req.amount)] else []
      case _ => []
    else []
  }

  function Calls(cfg: Config, ls: seq<Label>): seq<Event> {
    if ls == [] then []
    else
      var n := |ls| - 1;
      Calls(cfg, ls[..n]) + CallsOf(Run(cfg, ls[..n]), ls[n])
  }

  /** In every run, the log is the calls of Daraja's client in order, each with the data of its request. */
  lemma {:induction false} LogIsAllCalls(cfg: Config, ls: seq<Label>)
    ensures Run(cfg, ls).mem.log == Calls(cfg, ls)
    decreases |ls|
  {
    hide Next, CallsOf;
    if ls != [] {
      var n := |ls| - 1;
      LogIsAllCalls(cfg, ls[..n]);
      LogStep(cfg, Run(cfg, ls[..n]), ls[n]);
    }
  }

  lemma LogStep(cfg: Config, s: State, l: Label)
    ensures Next(cfg, s, l).mem.log == s.mem.log + CallsOf(s, l)
  {
    hide Settle, Payments.Raises;
    assert s.mem.log + [] == s.mem.log;
  }

  /** A failed initiation leaves its row FAILED, with the reason, unless the database is down; its error is the same. */
  lemma FailureIsRecorded(cfg: Config, ls: seq<Label>, a: ActorId, reply: DbReply)
    requires Sane(cfg) && a in Run(cfg, ls).actors && Run(cfg, ls).actors[a].RecordFailure?
    ensures
      var s := Run(cfg, ls);
      var s' := Next(cfg, s, Act(a, Db(reply)));
      var RecordFailure(req, id) := s.actors[a];
      && id in s.mem.rows && id in s'.mem.rows && s'.actors[a] == Release(req, Raised(DarajaFailure))
      && if reply == DbDown then s'.mem.rows == s.mem.rows
         else FailedWith(s.mem.rows[id], s'.mem.rows[id], "Daraja API call failed before initiation", 1)
  {
    InvAlways(cfg, ls);
    var s := Run(cfg, ls);
    assert ActorOk(cfg, s.mem, s.actors[a]);
  }

  /** At position `n` of the run Daraja accepts the request for payment `p` and gives it these ids. */
  predicate GivenAt(cfg: Config, ls: seq<Label>, n: nat, p: PaymentId, checkout: string, merchant: string) {
    n < |ls| && ls[n].Act? && ls[n].answer == Accepted(checkout, merchant) &&
    (var s := Run(cfg, ls[..n]);
     ls[n].actor in s.actors && s.actors[ls[n].actor].Attempt? && s.actors[ls[n].actor].id == p)
  }

  ghost predicate Given(cfg: Config, ls: seq<Label>, p: PaymentId, checkout: string, merchant: string) {
    exists n :: GivenAt(cfg, ls, n, p, checkout, merchant)
  }

  lemma GivenBefore(cfg: Config, ls: seq<Label>, p: PaymentId, checkout: string, merchant: string)
    requires ls != [] && Given(cfg, ls[..|ls| - 1], p, checkout, merchant)
    ensures Given(cfg, ls, p, checkout, merchant)
  {
    var n: nat :| GivenAt(cfg, ls[..|ls| - 1], n, p, checkout, merchant);
    assert ls[..|ls| - 1][..n] == ls[..n];
    assert GivenAt(cfg, ls, n, p, checkout, merchant);
  }

  /** The ids in a row, and the ids that an initiation is about to store. */
  ghost predicate AllGiven(cfg: Config, ls: seq<Label>) {
    var s := Run(cfg, ls);
    && (forall p :: p in s.mem.rows && s.mem.rows[p].checkout.Some? ==>
          s.mem.rows[p].merchant.Some? &&
          Given(cfg, ls, p, s.mem.rows[p].checkout.value, s.mem.rows[p].merchant.value))
    && (forall a :: a in s.actors && s.actors[a].StoreIds? ==>
          Given(cfg, ls, s.actors[a].id, s.actors[a].checkout, s.actors[a].merchant))
  }

  lemma IdsStep(cfg: Config, s: State, l: Label, p: PaymentId)
    requires Sane(cfg) && Inv(cfg, s) && p in Next(cfg, s, l).mem.rows
    ensures
      var row' := Next(cfg, s, l).mem.rows[p];
      row'.checkout.Some? ==>
        (p in s.mem.rows && row'.checkout == s.mem.rows[p].checkout && row'.merchant == s.mem.rows[p].merchant) ||
        (l.Act? && l.actor in s.actors && s.actors[l.actor].StoreIds? && s.actors[l.actor].id == p &&
         row'.checkout == Some(s.actors[l.actor].checkout) && row'.merchant == Some(s.actors[l.actor].merchant))
  {
    hide Move, MemoryOk, ActorOk;
    if l.Act? && l.actor in s.actors {
      MoveRows(cfg, s.mem, s.actors[l.actor], l.answer);
      if Writes(cfg, s, l) {
        SettleShape(s.mem.rows, Statement(cfg, s.mem, s.actors[l.actor]).value, l.answer.db);
      }
    }
  }

  predicate Writes(cfg: Config, s: State, l: Label)
    requires l.Act? && l.actor in s.actors
  {
    l.answer.Db? && Statement(cfg, s.mem, s.actors[l.actor]).Some?
  }

  lemma StoringStep(cfg: Config, s: State, l: Label, a: ActorId)
    requires a in Next(cfg, s, l).actors && Next(cfg, s, l).actors[a].StoreIds?
    ensures a in s.actors
    ensures
      var x := Next(cfg, s, l).actors[a];
      s.actors[a] == x ||
      (l == Act(a, Accepted(x.checkout, x.merchant)) && s.actors[a].Attempt? && s.actors[a].id == x.id)
  {
    hide Settle, Payments.Raises;
  }

  /** In every run, the ids in a row are ids that Daraja gave to a request for that very payment. */
  lemma {:induction false} StoredIdsWereGiven(cfg: Config, ls: seq<Label>)
    requires Sane(cfg)
    ensures AllGiven(cfg, ls)
    decreases |ls|
  {
    hide Next, Inv, Given, GivenAt;
    if ls != [] {
      var m := |ls| - 1;
      var s, s' := Run(cfg, ls[..m]), Run(cfg, ls);
      StoredIdsWereGiven(cfg, ls[..m]);
      InvAlways(cfg, ls[..m]);
      forall p, c, d | Given(cfg, ls[..m], p, c, d)
        ensures Given(cfg, ls, p, c, d)
      {
        GivenBefore(cfg, ls, p, c, d);
      }
      forall p | p in s'.mem.rows && s'.mem.rows[p].checkout.Some?
        ensures s'.mem.rows[p].merchant.Some?
        ensures Given(cfg, ls, p, s'.mem.rows[p].checkout.value, s'.mem.rows[p].merchant.value)
      {
        IdsStep(cfg, s, ls[m], p);
      }
      forall a | a in s'.actors && s'.actors[a].StoreIds?
        ensures Given(cfg, ls, s'.actors[a].id, s'.actors[a].checkout, s'.actors[a].merchant)
      {
        StoringStep(cfg, s, ls[m], a);
        if s.actors[a] != s'.actors[a] {
          GivenNow(cfg, ls, a);
        }
      }
    }
  }

  lemma GivenNow(cfg: Config, ls: seq<Label>, a: ActorId)
    requires ls != [] && ls[|ls| - 1].Act? && ls[|ls| - 1].actor == a && ls[|ls| - 1].answer.Accepted?
    requires a in Run(cfg, ls[..|ls| - 1]).actors && Run(cfg, ls[..|ls| - 1]).actors[a].Attempt?
    ensures
      var l := ls[|ls| - 1];
      Given(cfg, ls, Run(cfg, ls[..|ls| - 1]).actors[a].id, l.answer.checkout, l.answer.merchant)
  {
    var l := ls[|ls| - 1];
    assert GivenAt(cfg, ls, |ls| - 1, Run(cfg, ls[..|ls| - 1]).actors[a].id, l.answer.checkout, l.answer.merchant);
  }

  // ----- The cached answer ------------------------------------------------------------------------

  /**
   In every run, once an initiation's answer has reached the cache, every request with its key is given that very
   answer, as long as Redis answers and the entry is not lost.
   */
  lemma RepeatIsServedFromCache(cfg: Config, ls: seq<Label>, a: ActorId, reply: RedisReply, more: seq<Label>,
                                b: ActorId)
    requires Sane(cfg) && a in Run(cfg, ls).actors && Run(cfg, ls).actors[a].FillCache? && reply != Down
    requires forall l <- more :: l != LoseCache(Run(cfg, ls).actors[a].req.key)
    requires
      var s := Run(cfg, ls + [Act(a, Redis(reply))] + more);
      b in s.actors && s.actors[b].ReadCache? && s.actors[b].req.key == Run(cfg, ls).actors[a].req.key
    ensures
      var s := Run(cfg, ls + [Act(a, Redis(reply))] + more);
      Next(cfg, s, Act(b, Redis(Up))).actors[b]
        == Finished(s.actors[b].req, Returned(Run(cfg, ls).actors[a].response))
  {
    var filled := ls + [Act(a, Redis(reply))];
    RunExtends(cfg, Initial(), ls, filled, Act(a, Redis(reply)));
    CachedStays(cfg, filled, more, Run(cfg, ls).actors[a].req.key);
  }

  lemma {:induction false} CachedStays(cfg: Config, ls: seq<Label>, more: seq<Label>, key: string)
    requires Sane(cfg) && key in Run(cfg, ls).mem.cache && forall l <- more :: l != LoseCache(key)
    ensures key in Run(cfg, ls + more).mem.cache && Run(cfg, ls + more).mem.cache[key] == Run(cfg, ls).mem.cache[key]
    decreases |more|
  {
    hide Next, Inv, CachedFirstHand;
    if more == [] {
      assert ls + more == ls;
    } else {
      var n := |more| - 1;
      assert more[n] in more && forall l <- more[..n] :: l in more;
      CachedStays(cfg, ls, more[..n], key);
      InvAlways(cfg, ls + more[..n]);
      CachedAlways(cfg, ls + more[..n]);
      RunExtends(cfg, Initial(), ls + more[..n], ls + more, more[n]);
      CachedStep(cfg, Run(cfg, ls + more[..n]), more[n], key);
    }
  }

  /** Another initiation with the key could only have the same answer. */
  lemma CachedStep(cfg: Config, s: State, l: Label, key: string)
    requires Inv(cfg, s) && CachedFirstHand(s) && key in s.mem.cache && l != LoseCache(key)
    ensures key in Next(cfg, s, l).mem.cache && Next(cfg, s, l).mem.cache[key] == s.mem.cache[key]
  {
    hide Move, MemoryOk, ActorOk;
    if l.Act? && l.actor in s.actors {
      OneAnswer(cfg, s, l.actor, key);
      MoveKeys(cfg, s.mem, s.actors[l.actor], l.answer);
    }
  }

  lemma OneAnswer(cfg: Config, s: State, a: ActorId, key: string)
    requires Inv(cfg, s) && CachedFirstHand(s) && key in s.mem.cache && a in s.actors
    ensures s.actors[a].FillCache? && s.actors[a].req.key == key ==> s.actors[a].response == s.mem.cache[key]
  {
    hide LogOk;
    assert ActorOk(cfg, s.mem, s.actors[a]);
    assert ResponseOk(s.mem.rows, key, s.mem.cache[key]);
  }
}
