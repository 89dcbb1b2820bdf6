/**
 Callbacks that come too early. Daraja may call back before its answer to the initiation is stored; the
 lookup then finds no payment, and the guard that the callback has set stands in the way of every other.
 */
module EarlyCallback {
  import opened Basics
  import opened Payments
  import opened StkProtocol
  import opened StkInvariant
  import opened Scenarios
  import opened Lifecycle

  // ----- A guard burnt too early ------------------------------------------------------------------

  /** The guard of `c` is set, nobody is at work behind it, and no row with that id is COMPLETED. */
  ghost predicate Burnt(s: State, c: string) {
    && c in s.mem.guards
    && (forall a :: a in s.actors ==> !Active(s.actors[a], c))
    && (forall p :: p in s.mem.rows && s.mem.rows[p].checkout == Some(c) ==> !s.mem.rows[p].status.Completed?)
  }

  /** While the guard is kept, a burnt id stays burnt. */
  lemma {:induction false} BurntForGood(cfg: Config, ls: seq<Label>, more: seq<Label>, c: string)
    requires Sane(cfg) && GuardsKept(cfg, ls + more) && Burnt(Run(cfg, ls), c)
    ensures Burnt(Run(cfg, ls + more), c)
    decreases |more|
  {
    hide Next, GuardsKept, Burnt;
    if more == [] {
      assert ls + more == ls;
    } else {
      var n := |more| - 1;
      var before := ls + more[..n];
      assert before == (ls + more)[..|before|] && (ls + more)[|before|] == more[n];
      KeptAt(cfg, ls + more, |before|);
      GuardsKeptPrefix(cfg, ls + more, |before|);
      BurntForGood(cfg, ls, more[..n], c);
      InvAlways(cfg, before);
      RunExtends(cfg, Initial(), before, ls + more, more[n]);
      BurntStep(cfg, Run(cfg, before), more[n], c);
    }
  }

  lemma KeptAt(cfg: Config, ls: seq<Label>, n: nat)
    requires GuardsKept(cfg, ls) && n < |ls|
    ensures GuardKept(Run(cfg, ls[..n]), ls[n])
  {
  }

  lemma BurntStep(cfg: Config, s: State, l: Label, c: string)
    requires Sane(cfg) && Inv(cfg, s) && GuardKept(s, l) && Burnt(s, c)
    ensures Burnt(Next(cfg, s, l), c)
  {
    hide MemoryOk, ActorOk, Move;
    if l.Act? && l.actor in s.actors {
      var x := s.actors[l.actor];
      TableOfMemory(cfg, s.mem);
      MoveGuards(cfg, s.mem, x, l.answer, c);
      forall p | p in Next(cfg, s, l).mem.rows && Next(cfg, s, l).mem.rows[p].checkout == Some(c)
        ensures !Next(cfg, s, l).mem.rows[p].status.Completed?
      {
        if p in s.mem.rows {
          MoveCompletes(cfg, s.mem, x, l.answer, p);
        } else {
          NewRowsArePending(cfg, s.mem, x, l.answer, p);
        }
      }
    }
  }

  /** A processor whose lookup ends it leaves its id burnt. */
  lemma LookupBurns(cfg: Config, s: State, a: ActorId, cb: Callback, answer: Answer)
    requires GuardInv(s) && a in s.actors && s.actors[a] == FindPayment(cb)
    requires Next(cfg, s, Act(a, answer)).actors[a].CallbackEnded?
    ensures Burnt(Next(cfg, s, Act(a, answer)), cb.checkout)
  {
    assert Active(s.actors[a], cb.checkout);
  }

  // ----- What decides whether a callback completes its payment ------------------------------------

  predicate HasCompleted(s: State, c: string) {
    exists p <- s.mem.rows.Keys :: s.mem.rows[p].checkout == Some(c) && s.mem.rows[p].status.Completed?
  }

  /** Processor `a` is not cancelled, and the database does not refuse its transaction. */
  predicate Served(ls: seq<Label>, a: ActorId) {
    forall l <- ls :: l != Cancel(a) && l != Act(a, Db(DbDown))
  }

  /** A processor that has found its payment goes on to complete it, unless it crashes. */
  lemma {:induction false} OutcomeArrives(cfg: Config, ls: seq<Label>, more: seq<Label>, a: ActorId, cb: Callback,
                                          id: PaymentId)
    requires Sane(cfg) && Succeeds(cb) && Served(more, a)
    requires a in Run(cfg, ls).actors && Run(cfg, ls).actors[a] == ApplyOutcome(cb, id)
    ensures a in Run(cfg, ls + more).actors
    ensures
      var x := Run(cfg, ls + more).actors[a];
      x == ApplyOutcome(cb, id) || x.Crashed? ||
      (x.CallbackEnded? && exists k :: 0 <= k <= |more| && HasCompleted(Run(cfg, ls + more[..k]), cb.checkout))
    decreases |more|
  {
    hide Next, HasCompleted;
    if more == [] {
      assert ls + more == ls;
    } else {
      var n := |more| - 1;
      ServedPrefix(more, n, a);
      OutcomeArrives(cfg, ls, more[..n], a, cb, id);
      InvAlways(cfg, ls + more[..n]);
      RunExtends(cfg, Initial(), ls + more[..n], ls + more, more[n]);
      OutcomeStep(cfg, Run(cfg, ls + more[..n]), more[n], a, cb, id);
      assert more[..n + 1] == more;
      assert forall k :: 0 <= k <= n ==> more[..n][..k] == more[..k];
    }
  }

  lemma ServedPrefix(ls: seq<Label>, n: nat, a: ActorId)
    requires Served(ls, a) && n < |ls|
    ensures Served(ls[..n], a) && ls[n] != Cancel(a) && ls[n] != Act(a, Db(DbDown))
  {
    assert ls[n] in ls && forall l <- ls[..n] :: l in ls;
  }

  lemma OutcomeStep(cfg: Config, s: State, l: Label, a: ActorId, cb: Callback, id: PaymentId)
    requires Inv(cfg, s) && Succeeds(cb) && a in s.actors && l != Cancel(a) && l != Act(a, Db(DbDown))
    ensures a in Next(cfg, s, l).actors
    ensures s.actors[a].Crashed? || s.actors[a].CallbackEnded? ==> Next(cfg, s, l).actors[a] == s.actors[a]
    ensures s.actors[a] == ApplyOutcome(cb, id) ==>
              var s' := Next(cfg, s, l);
              s'.actors[a] == s.actors[a] || s'.actors[a].Crashed? ||
              (s'.actors[a].CallbackEnded? && HasCompleted(s', cb.checkout))
  {
    if !By(l, a) {
      OthersLeave(cfg, s, l, a);
    } else if l.Act? && l.answer.Db? && s.actors[a] == ApplyOutcome(cb, id) {
      hide MemoryOk;
      assert ActorOk(cfg, s.mem, s.actors[a]);
      assert Next(cfg, s, l).mem.rows[id].status.Completed?;
    }
  }

  /**
   Under kept guards, for an admitted callback that reports success and is served to its end: its payment is
   COMPLETED at some point, by this or any other callback, if and only if its own lookup found the row.
   */
  lemma LookupDecides(cfg: Config, ls: seq<Label>, a: ActorId, answer: Answer, more: seq<Label>)
    requires Sane(cfg) && GuardsKept(cfg, ls + [Act(a, answer)] + more)
    requires a in Run(cfg, ls).actors && Run(cfg, ls).actors[a].FindPayment? && Succeeds(Run(cfg, ls).actors[a].cb)
    requires
      var looked := ls + [Act(a, answer)];
      && a in Run(cfg, looked).actors && Run(cfg, looked).actors[a] != Run(cfg, ls).actors[a]
      && Served(more, a) && a in Run(cfg, looked + more).actors && Run(cfg, looked + more).actors[a].CallbackEnded?
    ensures
      var c := Run(cfg, ls).actors[a].cb.checkout;
      && !HasCompleted(Run(cfg, ls), c)
      && ((exists k :: 0 <= k <= |more| && HasCompleted(Run(cfg, ls + [Act(a, answer)] + more[..k]), c))
          <==> answer.Found?)
  {
    var l := Act(a, answer);
    var looked := ls + [l];
    var cb := Run(cfg, ls).actors[a].cb;
    KeptBefore(cfg, looked + more, ls);
    GuardInvAlways(cfg, ls);
    NotYetCompleted(Run(cfg, ls), a, cb);
    RunExtends(cfg, Initial(), ls, looked, l);
    LookupLeads(cfg, Run(cfg, ls), a, cb, answer);
    hide Next, GuardsKept, RunFrom, GuardInv, HasCompleted;
    if answer.Found? {
      OutcomeArrives(cfg, looked, more, a, cb, answer.id);
    } else {
      LookupBurns(cfg, Run(cfg, ls), a, cb, answer);
      forall k | 0 <= k <= |more|
        ensures !HasCompleted(Run(cfg, looked + more[..k]), cb.checkout)
      {
        KeptBefore(cfg, looked + more, looked + more[..k]);
        BurntForGood(cfg, looked, more[..k], cb.checkout);
        BurntIsNotCompleted(Run(cfg, looked + more[..k]), cb.checkout);
      }
    }
  }

  lemma KeptBefore(cfg: Config, ls: seq<Label>, before: seq<Label>)
    requires GuardsKept(cfg, ls) && before <= ls
    ensures GuardsKept(cfg, before)
  {
    hide GuardsKept;
    assert before == ls[..|before|];
    GuardsKeptPrefix(cfg, ls, |before|);
  }

  lemma NotYetCompleted(s: State, a: ActorId, cb: Callback)
    requires GuardInv(s) && a in s.actors && s.actors[a] == FindPayment(cb)
    ensures !HasCompleted(s, cb.checkout)
  {
    assert Active(s.actors[a], cb.checkout);
  }

  lemma LookupLeads(cfg: Config, s: State, a: ActorId, cb: Callback, answer: Answer)
    requires a in s.actors && s.actors[a] == FindPayment(cb) && Next(cfg, s, Act(a, answer)).actors[a] != s.actors[a]
    ensures Next(cfg, s, Act(a, answer)).actors[a].CallbackEnded? || answer.Found?
    ensures answer.Found? ==> Next(cfg, s, Act(a, answer)).actors[a] == ApplyOutcome(cb, answer.id)
  {
  }

  lemma BurntIsNotCompleted(s: State, c: string)
    requires Burnt(s, c)
    ensures !HasCompleted(s, c)
  {
  }

  // ----- It happens -------------------------------------------------------------------------------

  /** Daraja calls back before actor 0 stores its ids. */
  function Overtaking(cb: Callback): seq<Label> {
    [Deliver(2, cb)] + Acts(2, [Redis(Up), NotFound(0)])
  }

  function EarlyRun(req: Request, cb: Callback, merchant: string): seq<Label> {
    Approach(0, req, 7) + Acceptance(0, cb.checkout, merchant) + Overtaking(cb) + Acts(0, [Db(DbOk)])
  }

  lemma OvertakingRuns(cfg: Config, s: State, cb: Callback)
    requires 2 !in s.actors && cb.checkout !in s.mem.guards
    requires forall p <- s.mem.rows.Keys :: s.mem.rows[p].checkout != Some(cb.checkout)
    ensures RunFrom(cfg, s, Overtaking(cb))
         == State(s.mem.(guards := s.mem.guards + {cb.checkout}, admitted := s.mem.admitted + [cb]),
                  s.actors[2 := CallbackEnded(cb, Unmatched)])
  {
    var m1 := s.mem.(guards := s.mem.guards + {cb.checkout}, admitted := s.mem.admitted + [cb]);
    ArrivalAndCourse(cfg, s, Deliver(2, cb), 2, TakeGuard(cb), [Redis(Up), NotFound(0)],
                     [Step(s.mem, TakeGuard(cb)), Step(m1, FindPayment(cb)), Step(m1, CallbackEnded(cb, Unmatched))]);
  }

  lemma EarlyRunEnds(cfg: Config, req: Request, cb: Callback, merchant: string)
    requires req.amount > 0
    ensures
      var s := Run(cfg, EarlyRun(req, cb, merchant));
      && s.mem.rows == map[7 := StoredRow(req, 0, cb.checkout, merchant)] && s.mem.guards == {cb.checkout}
      && s.actors.Keys == {0, 2} && s.actors[0].FillCache? && s.actors[2] == CallbackEnded(cb, Unmatched)
  {
    hide RunFrom, Next;
    var approached := Approach(0, req, 7);
    var accepted := approached + Acceptance(0, cb.checkout, merchant);
    var overtaken := accepted + Overtaking(cb);
    Approaches(cfg, Initial(), 0, req, 7);
    IsAccepted(cfg, Run(cfg, approached), 0, req, 7, cb.checkout, merchant);
    RunAppends(cfg, Initial(), approached, Acceptance(0, cb.checkout, merchant));
    OvertakingRuns(cfg, Run(cfg, accepted), cb);
    RunAppends(cfg, Initial(), accepted, Overtaking(cb));
    StoresIds(cfg, Run(cfg, overtaken), 0, req, 7, cb.checkout, merchant);
    RunAppends(cfg, Initial(), overtaken, Acts(0, [Db(DbOk)]));
  }

  /**
   For every request and every callback for it there is a run, with all guards kept, in which the callback is
   looked up before the ids are stored: it is dropped, the ids are stored afterwards, the payment is left
   PENDING, and in no continuation with guards kept does anything complete it.
   */
  lemma DroppedCallbackIsLost(cfg: Config, req: Request, cb: Callback, merchant: string, more: seq<Label>)
    requires Sane(cfg) && req.amount > 0
    ensures GuardsKept(cfg, EarlyRun(req, cb, merchant))
    ensures
      var s := Run(cfg, EarlyRun(req, cb, merchant));
      && s.mem.rows == map[7 := StoredRow(req, 0, cb.checkout, merchant)]
      && 2 in s.actors && s.actors[2] == CallbackEnded(cb, Unmatched)
    ensures GuardsKept(cfg, EarlyRun(req, cb, merchant) + more) ==>
              var rows := Run(cfg, EarlyRun(req, cb, merchant) + more).mem.rows;
              7 in rows && rows[7].checkout == Some(cb.checkout) && !rows[7].status.Completed?
  {
    hide RunFrom, Next, GuardsKept;
    var ls := EarlyRun(req, cb, merchant);
    EarlyRunEnds(cfg, req, cb, merchant);
    RedisUpKeepsGuards(cfg, ls);
    if GuardsKept(cfg, ls + more) {
      assert Burnt(Run(cfg, ls), cb.checkout);
      BurntForGood(cfg, ls, more, cb.checkout);
      RunGrows(cfg, ls, more);
      BurntIsNotCompleted(Run(cfg, ls + more), cb.checkout);
    }
  }

  /** Once the guard is gone, another delivery of the same callback completes the payment after all. */
  lemma RedeliveryAfterExpiryCompletes(cfg: Config, req: Request, cb: Callback, merchant: string)
    requires req.amount > 0 && Succeeds(cb)
    ensures
      var s := Run(cfg, EarlyRun(req, cb, merchant) + [LoseGuard(cb.checkout)] + Completion(3, cb, 7));
      && s.mem.rows == map[7 := CompletedRow(StoredRow(req, 0, cb.checkout, merchant), cb)]
      && 3 in s.actors && s.actors[3] == CallbackEnded(cb, Applied)
  {
    hide RunFrom, Next, CompletedRow, StoredRow;
    var dropped := EarlyRun(req, cb, merchant);
    var expired := dropped + [LoseGuard(cb.checkout)];
    EarlyRunEnds(cfg, req, cb, merchant);
    KeyIsLost(cfg, Run(cfg, dropped), LoseGuard(cb.checkout));
    RunAppends(cfg, Initial(), dropped, [LoseGuard(cb.checkout)]);
    StoredCheckout(req, 0, cb.checkout, merchant);
    Completes(cfg, Run(cfg, expired), 3, cb, 7);
    RunAppends(cfg, Initial(), expired, Completion(3, cb, 7));
  }

  lemma StoredCheckout(req: Request, now: int, checkout: string, merchant: string)
    ensures StoredRow(req, now, checkout, merchant).checkout == Some(checkout)
  {
  }
}
