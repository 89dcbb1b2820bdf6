/**
 What the STK service promises about one idempotency key, over every run: any interleaving of workers,
 with locks lost, expired or released by another worker, Redis failing, cache entries gone, and actors
 crashing or being cancelled at any await. The lock is never relied on; the committed UNIQUE row is.
 */
module Idempotency {
  import opened Basics
  import opened Payments
  import opened StkProtocol
  import opened StkInvariant
  import opened Scenarios

  function Initiations(log: seq<Event>, key: string): nat {
    if log == [] then 0
    else
      var n := |log| - 1;
      Initiations(log[..n], key) + if log[n].Initiated? && log[n].key == key then 1 else 0
  }

  function HttpPosts(log: seq<Event>, key: string): nat {
    if log == [] then 0
    else
      var n := |log| - 1;
      HttpPosts(log[..n], key) + if log[n].Posted? && log[n].key == key then 1 else 0
  }

  /** For every key, `initiate` is called at most once, hence at most `attempts` requests go out. */
  lemma AtMostOneInitiation(cfg: Config, ls: seq<Label>, key: string)
    requires Sane(cfg)
    ensures Initiations(Run(cfg, ls).mem.log, key) <= 1
    ensures HttpPosts(Run(cfg, ls).mem.log, key) <= cfg.attempts
  {
    var m := Run(cfg, ls).mem;
    InvAlways(cfg, ls);
    if e :| e in m.log && e.key == key {
      OneIdPerKey(m.rows, m.log, e.id, key);
    } else {
      NoEvents(m.log, key);
    }
  }

  lemma {:induction false} NoEvents(log: seq<Event>, key: string)
    requires forall e :: e in log ==> e.key != key
    ensures Initiations(log, key) == 0 && HttpPosts(log, key) == 0
  {
    if log != [] {
      assert log[|log| - 1] in log;
      NoEvents(log[..|log| - 1], key);
    }
  }

  /** Events with one key are events of one payment, because keys are unique among committed rows. */
  lemma {:induction false} OneIdPerKey(rows: Table, log: seq<Event>, id: PaymentId, key: string)
    requires UniqueKeys(rows) && id in rows && rows[id].key == key
    requires forall e :: e in log ==> Anchored(rows, e.id, e.key, e.phone, e.amount)
    requires forall i, j :: 0 <= i < j < |log| && log[i].Initiated? && log[j].Initiated? ==> log[i].id != log[j].id
    ensures HttpPosts(log, key) == Posts(log, id)
    ensures Initiations(log, key) == if exists e <- log :: e.Initiated? && e.id == id then 1 else 0
  {
    if log != [] {
      var n := |log| - 1;
      assert log == log[..n] + [log[n]];
      assert log[n] in log;
      OneIdPerKey(rows, log[..n], id, key);
      assert log[n].key == key <==> log[n].id == id;
      forall e | e in log[..n] && e.Initiated? && log[n].Initiated?
        ensures e.id != log[n].id
      {
        var i :| 0 <= i < n && log[i] == e;
      }
    }
  }

  /**
   Whatever went out to Daraja has a committed row with its key, phone and amount; the row is there in
   every later state too, so at every point where anything may crash.
   */
  lemma EveryCallIsAnchored(cfg: Config, ls: seq<Label>, more: seq<Label>, i: nat)
    requires Sane(cfg) && i < |Run(cfg, ls).mem.log|
    ensures
      var e := Run(cfg, ls).mem.log[i];
      Anchored(Run(cfg, ls + more).mem.rows, e.id, e.key, e.phone, e.amount)
  {
    InvAlways(cfg, ls);
    RunGrows(cfg, ls, more);
    assert Run(cfg, ls).mem.log[i] in Run(cfg, ls).mem.log;
  }

  /** A stored checkout id, and with it the merchant id, is written once and for all. */
  lemma CheckoutIdIsWrittenOnce(cfg: Config, ls: seq<Label>, more: seq<Label>, id: PaymentId)
    requires Sane(cfg) && id in Run(cfg, ls).mem.rows && Run(cfg, ls).mem.rows[id].checkout.Some?
    ensures id in Run(cfg, ls + more).mem.rows
    ensures
      var row, row' := Run(cfg, ls).mem.rows[id], Run(cfg, ls + more).mem.rows[id];
      row'.checkout == row.checkout && row'.merchant == row.merchant
  {
    InvAlways(cfg, ls);
    RunGrows(cfg, ls, more);
    assert RowOk(Run(cfg, ls).mem.rows[id]);
  }

  predicate Answered(s: State, a: ActorId) {
    a in s.actors && s.actors[a].Finished? && s.actors[a].outcome.Returned?
  }

  /**
   Any two successful answers for one key, from the original run, the cache or the table, name the same
   payment and, where both are non-empty, the same checkout and merchant ids.
   */
  lemma SameKeySameAnswer(cfg: Config, ls: seq<Label>, a: ActorId, b: ActorId)
    requires Sane(cfg)
    requires Answered(Run(cfg, ls), a) && Answered(Run(cfg, ls), b)
    requires Run(cfg, ls).actors[a].req.key == Run(cfg, ls).actors[b].req.key
    ensures
      var x, y := Run(cfg, ls).actors[a].outcome.response, Run(cfg, ls).actors[b].outcome.response;
      && x.paymentId == y.paymentId
      && (x.checkout != "" && y.checkout != "" ==> x.checkout == y.checkout)
      && (x.merchant != "" && y.merchant != "" ==> x.merchant == y.merchant)
  {
    InvAlways(cfg, ls);
    var s := Run(cfg, ls);
    assert ActorOk(cfg, s.mem, s.actors[a]) && ActorOk(cfg, s.mem, s.actors[b]);
  }

  // ----- What an answer carries -------------------------------------------------------------------

  /** The label is actor `a` finding the row of its key with a final status. */
  predicate ReadsFinal(s: State, l: Label, a: ActorId) {
    && l.Act? && l.actor == a && l.answer.Found? && a in s.actors && s.actors[a].LookUp? && l.answer.id in s.mem.rows
    && s.mem.rows[l.answer.id].key == s.actors[a].req.key
    && s.mem.rows[l.answer.id].status in {Completed, Failed, Cancelled}
  }

  /** At position `n` of the run, actor `a` is answered from the table. */
  predicate FromTable(cfg: Config, ls: seq<Label>, n: nat, a: ActorId) {
    n < |ls| && ReadsFinal(Run(cfg, ls[..n]), ls[n], a)
  }

  /** The row that it is answered with, as it is then. */
  function RowRead(cfg: Config, ls: seq<Label>, n: nat, a: ActorId): Payment
    requires FromTable(cfg, ls, n, a)
  {
    Run(cfg, ls[..n]).mem.rows[ls[n].answer.id]
  }

  predicate Carries(text: string, stored: Option<string>) {
    if stored.Some? then text == stored.value else text == ""
  }

  /** The answer tells of a row of the table: its id, its status, and the ids stored in it, empty if there are none. */
  predicate TellsOf(r: Response, id: PaymentId, row: Payment) {
    && r.paymentId == id && r.status == row.status
    && Carries(r.checkout, row.checkout) && Carries(r.merchant, row.merchant)
  }

  /** The answer of an initiation: PENDING, with the two ids that are stored in the row of its payment. */
  predicate FirstHand(rows: Table, r: Response) {
    && r.status.Pending? && r.paymentId in rows
    && rows[r.paymentId].checkout == Some(r.checkout) && rows[r.paymentId].merchant == Some(r.merchant)
  }

  /** What is cached, or about to be, is the answer of an initiation. */
  ghost predicate CachedFirstHand(s: State) {
    && (forall k :: k in s.mem.cache ==> FirstHand(s.mem.rows, s.mem.cache[k]))
    && (forall a :: a in s.actors && s.actors[a].FillCache? ==> FirstHand(s.mem.rows, s.actors[a].response))
  }

  predicate Ending(x: Actor) {
    x.Release? || x.Finished? || x.Crashed?
  }

  predicate Returns(x: Actor) {
    (x.Release? || x.Finished?) && x.outcome.Returned?
  }

  lemma FirstHandStays(rows: Table, rows': Table, r: Response)
    requires FirstHand(rows, r) && Extends(rows, rows') && IdsKept(rows, rows')
    ensures FirstHand(rows', r)
  {
  }

  /** Where a cached answer comes from, and an answer that is about to be cached. */
  lemma MoveCaches(cfg: Config, m: Memory, x: Actor, answer: Answer)
    requires ActorOk(cfg, m, x)
    ensures
      var step := Move(cfg, m, x, answer);
      && (forall k :: k in step.mem.cache ==>
            (k in m.cache && step.mem.cache[k] == m.cache[k]) || (x.FillCache? && step.mem.cache[k] == x.response))
      && (step.actor.FillCache? ==>
            (x.FillCache? && step.actor.response == x.response) || FirstHand(step.mem.rows, step.actor.response))
  {
    hide Payments.Raises;
    if x.StoreIds? && answer.Db? {
      hide Settle;
      if !Payments.Raises(m.rows, UpdateDarajaIds(x.id, x.checkout, x.merchant), answer.db) {
        StoredIsFirstHand(m.rows, x.id, x.checkout, x.merchant, answer.db);
      }
    }
  }

  lemma StoredIsFirstHand(rows: Table, id: PaymentId, checkout: string, merchant: string, reply: DbReply)
    requires id in rows && !Payments.Raises(rows, UpdateDarajaIds(id, checkout, merchant), reply)
    ensures FirstHand(Settle(rows, UpdateDarajaIds(id, checkout, merchant), reply),
                      Response(id, checkout, merchant, Pending))
  {
  }

  /** Where an answer comes from that is not read from the table. */
  lemma MoveAnswers(cfg: Config, m: Memory, x: Actor, answer: Answer)
    ensures
      var step := Move(cfg, m, x, answer);
      && (Ending(x) ==> Ending(step.actor))
      && (Ending(x) && Returns(step.actor) ==> Returns(x) && step.actor.outcome == x.outcome)
      && (!Ending(x) && !x.LookUp? && Returns(step.actor) ==>
            (x.FillCache? && step.actor.outcome.response == x.response) ||
            (x.ReadCache? && x.req.key in m.cache && step.actor.outcome.response == m.cache[x.req.key]))
  {
    hide Settle, Payments.Raises;
  }

  lemma LookUpAnswers(cfg: Config, s: State, l: Label, a: ActorId)
    requires a in s.actors && s.actors[a].LookUp? && l.Act? && l.actor == a
    ensures
      var x := Next(cfg, s, l).actors[a];
      if ReadsFinal(s, l, a) then Returns(x) && TellsOf(x.outcome.response, l.answer.id, s.mem.rows[l.answer.id])
      else !Returns(x)
  {
  }

  lemma NextKeepsCached(cfg: Config, s: State, l: Label)
    requires Sane(cfg) && Inv(cfg, s) && CachedFirstHand(s)
    ensures CachedFirstHand(Next(cfg, s, l))
  {
    hide Move, MemoryOk, ActorOk, FirstHand, Extends, IdsKept;
    NextGrows(cfg, s, l);
    var s' := Next(cfg, s, l);
    forall r | FirstHand(s.mem.rows, r)
      ensures FirstHand(s'.mem.rows, r)
    {
      FirstHandStays(s.mem.rows, s'.mem.rows, r);
    }
    if l.Act? && l.actor in s.actors {
      MoveCaches(cfg, s.mem, s.actors[l.actor], l.answer);
    }
  }

  lemma {:induction false} CachedAlways(cfg: Config, ls: seq<Label>)
    requires Sane(cfg)
    ensures CachedFirstHand(Run(cfg, ls))
  {
    hide Next, Inv, CachedFirstHand;
    if ls == [] {
      NothingCached();
    } else {
      CachedAlways(cfg, ls[..|ls| - 1]);
      InvAlways(cfg, ls[..|ls| - 1]);
      NextKeepsCached(cfg, Run(cfg, ls[..|ls| - 1]), ls[|ls| - 1]);
    }
  }

  lemma NothingCached()
    ensures CachedFirstHand(Initial())
  {
  }

  /** One label: where an actor's answer comes from. */
  lemma AnswerStep(cfg: Config, s: State, l: Label, a: ActorId)
    requires CachedFirstHand(s)
    ensures a in s.actors ==> a in Next(cfg, s, l).actors
    ensures ReadsFinal(s, l, a) ==>
              !Ending(s.actors[a]) && Returns(Next(cfg, s, l).actors[a]) &&
              TellsOf(Next(cfg, s, l).actors[a].outcome.response, l.answer.id, s.mem.rows[l.answer.id])
    ensures a in s.actors && Ending(s.actors[a]) ==>
              var x := Next(cfg, s, l).actors[a];
              Ending(x) && (Returns(x) ==> (Returns(s.actors[a]) && x.outcome == s.actors[a].outcome))
    ensures a in Next(cfg, s, l).actors && (a in s.actors ==> !Ending(s.actors[a])) && !ReadsFinal(s, l, a) ==>
              var x := Next(cfg, s, l).actors[a];
              Returns(x) ==> FirstHand(s.mem.rows, x.outcome.response)
  {
    hide FirstHand, TellsOf;
    if !By(l, a) {
      OthersLeave(cfg, s, l, a);
    } else if l.Act? && a in s.actors {
      hide Move, ReadsFinal;
      MoveAnswers(cfg, s.mem, s.actors[a], l.answer);
      if s.actors[a].LookUp? {
        LookUpAnswers(cfg, s, l, a);
      } else {
        ReadsAtLookUp(s, l, a);
      }
    }
  }

  lemma ReadsAtLookUp(s: State, l: Label, a: ActorId)
    ensures ReadsFinal(s, l, a) ==> a in s.actors && s.actors[a].LookUp?
  {
  }

  /** The answer of actor `x`, if it has one, is first-hand in `rows`, or tells of a row that was read at some point. */
  ghost predicate Told(cfg: Config, ls: seq<Label>, a: ActorId)
    requires a in Run(cfg, ls).actors
  {
    var s := Run(cfg, ls);
    && (forall n :: 0 <= n < |ls| && FromTable(cfg, ls, n, a) ==>
          Ending(s.actors[a]) &&
          (Returns(s.actors[a]) ==> TellsOf(s.actors[a].outcome.response, ls[n].answer.id, RowRead(cfg, ls, n, a))))
    && (Returns(s.actors[a]) && (forall n :: 0 <= n < |ls| ==> !FromTable(cfg, ls, n, a)) ==>
          FirstHand(s.mem.rows, s.actors[a].outcome.response))
  }

  /**
   A successful answer: if the table gave it, it tells of the row as it was then, with the ids stored in it;
   otherwise it says PENDING, whatever has become of the payment since, and carries both stored ids.
   */
  lemma {:induction false} AnswerTells(cfg: Config, ls: seq<Label>, a: ActorId)
    requires Sane(cfg) && a in Run(cfg, ls).actors
    ensures Told(cfg, ls, a)
    decreases |ls|
  {
    hide Next, ReadsFinal, CachedFirstHand, FirstHand, TellsOf, Inv, Extends, IdsKept;
    assert ls != [];
    var n := |ls| - 1;
    var s := Run(cfg, ls[..n]);
    CachedAlways(cfg, ls[..n]);
    InvAlways(cfg, ls[..n]);
    AnswerStep(cfg, s, ls[n], a);
    NextGrows(cfg, s, ls[n]);
    forall r | FirstHand(s.mem.rows, r)
      ensures FirstHand(Run(cfg, ls).mem.rows, r)
    {
      FirstHandStays(s.mem.rows, Run(cfg, ls).mem.rows, r);
    }
    assert forall k :: 0 <= k < n ==> ls[..n][..k] == ls[..k] && ls[..n][k] == ls[k];
    assert forall k :: 0 <= k < n ==> (FromTable(cfg, ls, k, a) <==> FromTable(cfg, ls[..n], k, a));
    assert FromTable(cfg, ls, n, a) <==> ReadsFinal(s, ls[n], a);
    if a in s.actors {
      AnswerTells(cfg, ls[..n], a);
      assert forall k :: 0 <= k < n && FromTable(cfg, ls, k, a) ==>
        RowRead(cfg, ls, k, a) == RowRead(cfg, ls[..n], k, a);
    } else {
      NotYetThere(cfg, ls, n, a);
    }
  }

  /** An actor that has not arrived yet has not been answered. */
  lemma {:induction false} NotYetThere(cfg: Config, ls: seq<Label>, n: nat, a: ActorId)
    requires n <= |ls| && a !in Run(cfg, ls[..n]).actors
    ensures forall k :: 0 <= k <= n && k < |ls| ==> !FromTable(cfg, ls, k, a)
  {
    hide Next;
    if n > 0 {
      assert ls[..n][..n - 1] == ls[..n - 1];
      StaysThere(cfg, Run(cfg, ls[..n - 1]), ls[n - 1], a);
      NotYetThere(cfg, ls, n - 1, a);
    }
  }

  lemma StaysThere(cfg: Config, s: State, l: Label, a: ActorId)
    ensures a in s.actors ==> a in Next(cfg, s, l).actors
  {
  }

  /**
   The "same response" of the contract includes the status only this far: two answers agree in status if and
   only if neither was read from the table, or both were, with the row in one status.
   */
  lemma SameStatusIff(cfg: Config, ls: seq<Label>, a: ActorId, b: ActorId)
    requires Sane(cfg) && Answered(Run(cfg, ls), a) && Answered(Run(cfg, ls), b)
    ensures
      var x, y := Run(cfg, ls).actors[a].outcome.response, Run(cfg, ls).actors[b].outcome.response;
      x.status == y.status <==>
        ((forall n :: 0 <= n < |ls| ==> !FromTable(cfg, ls, n, a) && !FromTable(cfg, ls, n, b)) ||
         (exists n, m :: 0 <= n < |ls| && 0 <= m < |ls| && FromTable(cfg, ls, n, a) && FromTable(cfg, ls, m, b) &&
                         RowRead(cfg, ls, n, a).status == RowRead(cfg, ls, m, b).status))
  {
    AnswerTells(cfg, ls, a);
    AnswerTells(cfg, ls, b);
    hide Run;
  }

  /** A payment is pushed, cached and completed; the cached answer expires, and the key comes again. */
  function ColdRead(r: Request, cb: Callback, merchant: string, q: Request): seq<Label> {
    Approach(0, r, 7) + Push(0, cb.checkout, merchant) + Acts(0, [Redis(Up), Redis(Up)]) + Completion(1, cb, 7) +
    [LoseCache(r.key)] + ([Arrive(2, q)] + Acts(2, [Redis(Up), Redis(Up), Found(7)]))
  }

  lemma AnswersFirst(cfg: Config, s: State, a: ActorId, r: Request, response: Response)
    requires a in s.actors && s.actors[a] == FillCache(r, response)
    ensures RunFrom(cfg, s, Acts(a, [Redis(Up), Redis(Up)]))
         == State(s.mem.(cache := s.mem.cache[r.key := response], locks := s.mem.locks - {r.key}),
                  s.actors[a := Finished(r, Returned(response))])
  {
    var m1 := s.mem.(cache := s.mem.cache[r.key := response]);
    Course(cfg, s, a, [Redis(Up), Redis(Up)],
           [Step(s.mem, s.actors[a]), Step(m1, Release(r, Returned(response))),
            Step(m1.(locks := s.mem.locks - {r.key}), Finished(r, Returned(response)))]);
  }

  lemma AnswersFromTable(
      cfg: Config, s: State, a: ActorId, q: Request, id: PaymentId, checkout: string, merchant: string)
    requires a !in s.actors && q.key !in s.mem.cache && q.key !in s.mem.locks
    requires id in s.mem.rows && s.mem.rows[id].key == q.key && s.mem.rows[id].status.Completed?
    requires s.mem.rows[id].checkout == Some(checkout) && s.mem.rows[id].merchant == Some(merchant)
    ensures RunFrom(cfg, s, [Arrive(a, q)] + Acts(a, [Redis(Up), Redis(Up), Found(id)]))
         == State(s.mem.(locks := s.mem.locks + {q.key}),
                  s.actors[a := Release(q, Returned(Response(id, checkout, merchant, Completed)))])
  {
    var locked := s.mem.(locks := s.mem.locks + {q.key});
    var end := Release(q, Returned(Response(id, checkout, merchant, Completed)));
    ArrivalAndCourse(cfg, s, Arrive(a, q), a, ReadCache(q), [Redis(Up), Redis(Up), Found(id)],
                     [Step(s.mem, ReadCache(q)), Step(s.mem, TakeLock(q)), Step(locked, LookUp(q)), Step(locked, end)]);
  }

  /**
   It does differ: for every request, every successful callback and every repetition there is a run in which the
   first answer says PENDING and the second COMPLETED, with the same payment and the same two ids.
   */
  lemma ColdReadTellsOutcome(cfg: Config, r: Request, cb: Callback, merchant: string, q: Request)
    requires r.amount > 0 && q.key == r.key && Succeeds(cb)
    ensures
      var s := Run(cfg, ColdRead(r, cb, merchant, q));
      && 0 in s.actors && s.actors[0] == Finished(r, Returned(Response(7, cb.checkout, merchant, Pending)))
      && 2 in s.actors && s.actors[2] == Release(q, Returned(Response(7, cb.checkout, merchant, Completed)))
  {
    hide RunFrom, Next;
    var approached := Approach(0, r, 7);
    var pushed := approached + Push(0, cb.checkout, merchant);
    var answered := pushed + Acts(0, [Redis(Up), Redis(Up)]);
    var completed := answered + Completion(1, cb, 7);
    var cold := completed + [LoseCache(r.key)];
    Approaches(cfg, Initial(), 0, r, 7);
    Pushes(cfg, Run(cfg, approached), 0, r, 7, cb.checkout, merchant);
    RunAppends(cfg, Initial(), approached, Push(0, cb.checkout, merchant));
    AnswersFirst(cfg, Run(cfg, pushed), 0, r, Response(7, cb.checkout, merchant, Pending));
    RunAppends(cfg, Initial(), pushed, Acts(0, [Redis(Up), Redis(Up)]));
    Completes(cfg, Run(cfg, answered), 1, cb, 7);
    RunAppends(cfg, Initial(), answered, Completion(1, cb, 7));
    KeyIsLost(cfg, Run(cfg, completed), LoseCache(r.key));
    RunAppends(cfg, Initial(), completed, [LoseCache(r.key)]);
    AnswersFromTable(cfg, Run(cfg, cold), 2, q, 7, cb.checkout, merchant);
    RunAppends(cfg, Initial(), cold, [Arrive(2, q)] + Acts(2, [Redis(Up), Redis(Up), Found(7)]));
  }

  // ----- A key that is taken ----------------------------------------------------------------------

  /** Where an initiation whose key is already taken can still get to: an error, or nowhere. */
  predicate Refused(x: Actor) {
    x.Insert? || x.Crashed? || (x.Release? && x.outcome.Raised?) || (x.Finished? && x.outcome.Raised?)
  }

  /**
   A request that went past the lookup while a row with its key exists, a PENDING one for instance, runs
   into the UNIQUE constraint: it ends in an error and calls Daraja at no time.
   */
  lemma {:induction false} TakenKeyIsRefused(cfg: Config, ls: seq<Label>, more: seq<Label>, a: ActorId, p: PaymentId)
    requires Sane(cfg) && a in Run(cfg, ls).actors && Run(cfg, ls).actors[a].Insert?
    requires p in Run(cfg, ls).mem.rows && Run(cfg, ls).mem.rows[p].key == Run(cfg, ls).actors[a].req.key
    ensures a in Run(cfg, ls + more).actors && Refused(Run(cfg, ls + more).actors[a])
    ensures Run(cfg, ls + more).actors[a].Insert? ==>
              Run(cfg, ls + more).actors[a] == Run(cfg, ls).actors[a]
    decreases |more|
  {
    hide Next;
    if more == [] {
      assert ls + more == ls;
    } else {
      var n := |more| - 1;
      TakenKeyIsRefused(cfg, ls, more[..n], a, p);
      RunExtends(cfg, Initial(), ls + more[..n], ls + more, more[n]);
      RunGrows(cfg, ls, more[..n]);
      RefusedStep(cfg, Run(cfg, ls + more[..n]), more[n], a, p);
    }
  }

  lemma RefusedStep(cfg: Config, s: State, l: Label, a: ActorId, p: PaymentId)
    requires a in s.actors && Refused(s.actors[a]) && p in s.mem.rows
    requires s.actors[a].Insert? ==> s.mem.rows[p].key == s.actors[a].req.key
    ensures a in Next(cfg, s, l).actors && Refused(Next(cfg, s, l).actors[a])
    ensures Next(cfg, s, l).actors[a].Insert? ==> Next(cfg, s, l).actors[a] == s.actors[a]
  {
    if !By(l, a) {
      OthersLeave(cfg, s, l, a);
    }
  }

  // ----- Pending rows -----------------------------------------------------------------------------

  /** In every reachable state a PENDING row carries no outcome, so the sweep never takes its query branch. */
  lemma PendingRowsAreBlank(cfg: Config, ls: seq<Label>)
    requires Sane(cfg)
    ensures
      var s := Run(cfg, ls);
      && (forall p <- s.mem.rows.Keys :: s.mem.rows[p].status.Pending? ==>
            s.mem.rows[p].receipt.None? && s.mem.rows[p].amountPaid.None? && s.mem.rows[p].paidAt.None? &&
            s.mem.rows[p].failureReason.None? && s.mem.rows[p].resultCode.None?)
      && (forall a <- s.actors.Keys :: s.actors[a].Sweeping? ==> forall c <- s.actors[a].batch :: !Queried(c))
  {
    InvAlways(cfg, ls);
    var s := Run(cfg, ls);
    assert forall p :: p in s.mem.rows ==> RowOk(s.mem.rows[p]);
    assert forall a :: a in s.actors ==> ActorOk(cfg, s.mem, s.actors[a]);
  }

  /** A committed payment without Daraja ids that no initiation answers for any more. */
  ghost predicate Orphan(s: State, id: PaymentId) {
    && id in s.mem.rows && s.mem.rows[id].checkout.None?
    && forall a :: a in s.actors ==> HeldId(s.actors[a]) != Some(id)
  }

  /** From then on only the sweep touches it: it keeps its status or becomes FAILED. */
  lemma {:induction false} OrphanNeverCompletes(cfg: Config, ls: seq<Label>, more: seq<Label>, id: PaymentId)
    requires Sane(cfg) && Orphan(Run(cfg, ls), id)
    ensures Orphan(Run(cfg, ls + more), id)
    ensures Run(cfg, ls + more).mem.rows[id].status in {Run(cfg, ls).mem.rows[id].status, Status.Failed}
    ensures !Run(cfg, ls + more).mem.rows[id].status.Completed?
    decreases |more|
  {
    hide Next, Inv, Orphan;
    if more == [] {
      assert ls + more == ls;
    } else {
      var n := |more| - 1;
      OrphanNeverCompletes(cfg, ls, more[..n], id);
      InvAlways(cfg, ls + more[..n]);
      RunExtends(cfg, Initial(), ls + more[..n], ls + more, more[n]);
      OrphanStep(cfg, Run(cfg, ls + more[..n]), more[n], id);
    }
    InvAlways(cfg, ls + more);
    OrphanIsNotCompleted(cfg, Run(cfg, ls + more), id);
  }

  lemma OrphanIsNotCompleted(cfg: Config, s: State, id: PaymentId)
    requires Inv(cfg, s) && Orphan(s, id)
    ensures !s.mem.rows[id].status.Completed?
  {
    assert RowOk(s.mem.rows[id]);
  }

  lemma OrphanStep(cfg: Config, s: State, l: Label, id: PaymentId)
    requires Sane(cfg) && Inv(cfg, s) && Orphan(s, id)
    ensures Orphan(Next(cfg, s, l), id)
    ensures Next(cfg, s, l).mem.rows[id].status in {s.mem.rows[id].status, Status.Failed}
  {
    hide MemoryOk, Move;
    match l {
      case Act(a, answer) =>
        if a in s.actors {
          MoveIsGood(cfg, s.mem, s.actors[a], answer);
          MoveRow(cfg, s.mem, s.actors[a], answer, id);
        }
      case Cancel(a) =>
        if a in s.actors {
          UnwoundIsOk(cfg, s.mem, s.actors[a]);
        }
      case _ =>
    }
  }

  /**
   When the retries run out, tenacity's RetryError passes the `except DarajaError` clause: the row stays
   as it is, is orphaned, and no callback ever completes it, although requests did go out.
   */
  lemma ExhaustedRetriesOrphan(cfg: Config, ls: seq<Label>, a: ActorId, more: seq<Label>)
    requires Sane(cfg) && a in Run(cfg, ls).actors && Run(cfg, ls).actors[a].Attempt?
    requires Run(cfg, ls).actors[a].used + 1 >= cfg.attempts
    ensures
      var id := Run(cfg, ls).actors[a].id;
      var stranded := ls + [Act(a, Transient)];
      && id in Run(cfg, ls).mem.rows && id in Run(cfg, stranded + more).mem.rows
      && Run(cfg, stranded).mem.rows == Run(cfg, ls).mem.rows
      && Run(cfg, stranded).actors == Run(cfg, ls).actors[a := Release(Run(cfg, ls).actors[a].req, Raised(Escaped))]
      && !Run(cfg, stranded + more).mem.rows[id].status.Completed?
  {
    InvAlways(cfg, ls);
    var s := Run(cfg, ls);
    var id := s.actors[a].id;
    RunExtends(cfg, Initial(), ls, ls + [Act(a, Transient)], Act(a, Transient));
    assert ActorOk(cfg, s.mem, s.actors[a]);
    OrphanNeverCompletes(cfg, ls + [Act(a, Transient)], more, id);
  }

  // ----- Retries that run out ---------------------------------------------------------------------

  function Timeouts(n: nat): seq<Answer> {
    seq(n, _ => Transient)
  }

  function Sent(req: Request, n: nat): seq<Event> {
    seq(n, _ => Posted(7, req.key, req.phone, req.amount))
  }

  /** Every attempt of an initiation fails in transit. */
  function Exhaustion(cfg: Config, req: Request): seq<Label> {
    Approach(0, req, 7) + Acts(0, [Db(DbOk), CircuitClosed]) + Acts(0, Timeouts(cfg.attempts))
  }

  lemma CallsDaraja(cfg: Config, s: State, req: Request)
    requires 0 in s.actors && s.actors[0] == Insert(req, 7) && FreeFor(s.mem.rows, req, 7)
    ensures RunFrom(cfg, s, Acts(0, [Db(DbOk), CircuitClosed]))
         == State(s.mem.(rows := s.mem.rows[7 := NewPayment(req.key, req.phone, req.amount, s.mem.now)],
                         log := s.mem.log + [Initiated(7, req.key, req.phone, req.amount)]),
                  s.actors[0 := Attempt(req, 7, 0)])
  {
    hide Settle, Payments.Raises;
    InsertSettles(s.mem.rows, req, 7, s.mem.now);
    var m1 := s.mem.(rows := s.mem.rows[7 := NewPayment(req.key, req.phone, req.amount, s.mem.now)]);
    var m2 := m1.(log := m1.log + [Initiated(7, req.key, req.phone, req.amount)]);
    Course(cfg, s, 0, [Db(DbOk), CircuitClosed],
           [Step(s.mem, Insert(req, 7)), Step(m1, Call(req, 7)), Step(m2, Attempt(req, 7, 0))]);
  }

  /** Where the retry loop stands after `n` failures. */
  function Retried(cfg: Config, m: Memory, req: Request, n: nat): Step {
    Step(m.(log := m.log + Sent(req, n)),
         if n < cfg.attempts then Attempt(req, 7, n) else Release(req, Raised(Escaped)))
  }

  lemma OneMoreTimeout(cfg: Config, m: Memory, req: Request, n: nat)
    requires n < cfg.attempts
    ensures
      var step := Retried(cfg, m, req, n);
      Move(cfg, step.mem, step.actor, Transient) == Retried(cfg, m, req, n + 1)
  {
    assert Sent(req, n + 1) == Sent(req, n) + [Posted(7, req.key, req.phone, req.amount)];
    assert m.log + Sent(req, n + 1) == m.log + Sent(req, n) + [Posted(7, req.key, req.phone, req.amount)];
  }

  lemma TimesOut(cfg: Config, s: State, req: Request)
    requires Sane(cfg) && 0 in s.actors && s.actors[0] == Attempt(req, 7, 0)
    ensures RunFrom(cfg, s, Acts(0, Timeouts(cfg.attempts)))
         == State(s.mem.(log := s.mem.log + Sent(req, cfg.attempts)), s.actors[0 := Release(req, Raised(Escaped))])
  {
    hide Move;
    var steps := seq(cfg.attempts + 1, n requires 0 <= n <= cfg.attempts => Retried(cfg, s.mem, req, n));
    assert s.mem.log + Sent(req, 0) == s.mem.log;
    forall n | 0 <= n < cfg.attempts
      ensures Move(cfg, steps[n].mem, steps[n].actor, Timeouts(cfg.attempts)[n]) == steps[n + 1]
    {
      OneMoreTimeout(cfg, s.mem, req, n);
    }
    Course(cfg, s, 0, Timeouts(cfg.attempts), steps);
  }

  /**
   For every number of attempts and every request there is such a run: all attempts go out, the row is left
   PENDING without ids, and in no continuation does anything complete it.
   */
  lemma ExhaustedRunStrands(cfg: Config, req: Request, more: seq<Label>)
    requires Sane(cfg) && req.amount > 0
    ensures
      var s := Run(cfg, Exhaustion(cfg, req));
      && s.mem.rows == map[7 := NewPayment(req.key, req.phone, req.amount, 0)]
      && s.mem.log == [Initiated(7, req.key, req.phone, req.amount)] + Sent(req, cfg.attempts)
      && s.actors == map[0 := Release(req, Raised(Escaped))]
    ensures
      var rows := Run(cfg, Exhaustion(cfg, req) + more).mem.rows;
      7 in rows && !rows[7].status.Completed?
  {
    hide RunFrom, Next;
    var approached := Approach(0, req, 7);
    var called := approached + Acts(0, [Db(DbOk), CircuitClosed]);
    Approaches(cfg, Initial(), 0, req, 7);
    CallsDaraja(cfg, Run(cfg, approached), req);
    RunAppends(cfg, Initial(), approached, Acts(0, [Db(DbOk), CircuitClosed]));
    TimesOut(cfg, Run(cfg, called), req);
    RunAppends(cfg, Initial(), called, Acts(0, Timeouts(cfg.attempts)));
    OrphanNeverCompletes(cfg, Exhaustion(cfg, req), more, 7);
  }
}
