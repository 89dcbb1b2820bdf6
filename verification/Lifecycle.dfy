/**
 When a COMPLETED payment may stop being COMPLETED. The callback guard in Redis admits one delivery per
 checkout id as long as its key is not lost and Redis answers; under that premise only a stale sweep can
 overwrite a COMPLETED row, and a status test in the sweep's UPDATE closes that gap.
 */
module Lifecycle {
  import opened Basics
  import opened Payments
  import opened StkProtocol
  import opened StkInvariant
  import opened Scenarios

  /** A callback processor that passed the guard for `checkout` and has not finished. */
  predicate Active(x: Actor, checkout: string) {
    (x.FindPayment? || x.ApplyOutcome?) && x.cb.checkout == checkout
  }

  /** Label `l` neither loses a guard nor lets a callback through on a Redis failure. */
  predicate GuardKept(s: State, l: Label) {
    && !l.LoseGuard?
    && (l.Act? && l.actor in s.actors && s.actors[l.actor].TakeGuard? && l.answer.Redis? ==> l.answer.redis.Up?)
  }

  ghost predicate GuardsKept(cfg: Config, ls: seq<Label>) {
    forall n :: 0 <= n < |ls| ==> GuardKept(Run(cfg, ls[..n]), ls[n])
  }

  ghost predicate GuardInv(s: State) {
    && (forall a :: a in s.actors && (s.actors[a].FindPayment? || s.actors[a].ApplyOutcome?) ==>
          s.actors[a].cb.checkout in s.mem.guards)
    && (forall a, b, c :: a in s.actors && b in s.actors && Active(s.actors[a], c) && Active(s.actors[b], c) ==> a == b)
    && (forall p :: p in s.mem.rows && s.mem.rows[p].status.Completed? ==> Settled(s, p))
  }

  /** The guard of the payment's checkout id is set, and no processor is at work behind it. */
  ghost predicate Settled(s: State, p: PaymentId)
    requires p in s.mem.rows
  {
    && s.mem.rows[p].checkout.Some?
    && s.mem.rows[p].checkout.value in s.mem.guards
    && forall a :: a in s.actors ==> !Active(s.actors[a], s.mem.rows[p].checkout.value)
  }

  lemma MoveGuards(cfg: Config, m: Memory, x: Actor, answer: Answer, c: string)
    ensures m.guards <= Move(cfg, m, x, answer).mem.guards
    ensures Active(Move(cfg, m, x, answer).actor, c) ==>
              Active(x, c) || (x.TakeGuard? && x.cb.checkout == c && answer.Redis? &&
                               (answer.redis.Up? ==> c !in m.guards))
    ensures answer == Redis(Up) && Active(Move(cfg, m, x, answer).actor, c) ==>
              Active(x, c) || c in Move(cfg, m, x, answer).mem.guards
  {
    hide Settle, Raises, Violates;
  }

  /** A row becomes COMPLETED only in the hands of an active processor of its checkout id, which then ends. */
  lemma MoveCompletes(cfg: Config, m: Memory, x: Actor, answer: Answer, p: PaymentId)
    requires TableOk(m.rows) && ActorOk(cfg, m, x) && p in m.rows
    ensures p in Move(cfg, m, x, answer).mem.rows
    ensures
      var step := Move(cfg, m, x, answer);
      var row' := step.mem.rows[p];
      row'.status.Completed? && row' != m.rows[p] ==>
        m.rows[p].checkout.Some? && row'.checkout == m.rows[p].checkout &&
        Active(x, m.rows[p].checkout.value) && !Active(step.actor, m.rows[p].checkout.value)
  {
    MoveRow(cfg, m, x, answer, p);
    assert RowOk(m.rows[p]);
    hide Settle, Raises, Violates, TableOk;
  }

  lemma NewRowsArePending(cfg: Config, m: Memory, x: Actor, answer: Answer, p: PaymentId)
    requires p !in m.rows && p in Move(cfg, m, x, answer).mem.rows
    ensures !Move(cfg, m, x, answer).mem.rows[p].status.Completed?
  {
    hide Move;
    MoveRows(cfg, m, x, answer);
    var w := Statement(cfg, m, x).value;
    SettleShape(m.rows, w, answer.db);
  }

  lemma ActKeepsGuardInv(cfg: Config, s: State, a: ActorId, answer: Answer)
    requires Sane(cfg) && Inv(cfg, s) && GuardInv(s) && a in s.actors && GuardKept(s, Act(a, answer))
    ensures GuardInv(Next(cfg, s, Act(a, answer)))
  {
    hide MemoryOk, ActorOk, Move;
    var x := s.actors[a];
    var step := Move(cfg, s.mem, x, answer);
    var s' := Next(cfg, s, Act(a, answer));
    assert s' == State(step.mem, s.actors[a := step.actor]);
    assert TableOk(s.mem.rows) by { TableOfMemory(cfg, s.mem); }
    forall c
      ensures Active(step.actor, c) ==> c in s'.mem.guards && (Active(x, c) || c !in s.mem.guards)
    {
      MoveGuards(cfg, s.mem, x, answer, c);
    }
    MoveGuards(cfg, s.mem, x, answer, "");
    forall p | p in s'.mem.rows && s'.mem.rows[p].status.Completed?
      ensures Settled(s', p)
    {
      if p in s.mem.rows {
        MoveCompletes(cfg, s.mem, x, answer, p);
      } else {
        NewRowsArePending(cfg, s.mem, x, answer, p);
      }
    }
  }

  lemma TableOfMemory(cfg: Config, m: Memory)
    requires MemoryOk(cfg, m)
    ensures TableOk(m.rows)
  {
  }

  /** An actor that starts, or stops, is at work behind no guard. */
  lemma RestKeepsGuardInv(s: State, a: ActorId, x: Actor)
    requires GuardInv(s) && !x.FindPayment? && !x.ApplyOutcome?
    ensures GuardInv(s.(actors := s.actors[a := x]))
  {
    var s' := s.(actors := s.actors[a := x]);
    forall p | p in s'.mem.rows && s'.mem.rows[p].status.Completed?
      ensures Settled(s', p)
    {
      assert Settled(s, p);
    }
  }

  lemma DriftKeepsGuardInv(s: State, l: Label)
    requires GuardInv(s) && !l.LoseGuard?
    ensures GuardInv(s.(mem := Drift(s.mem, l)))
  {
    forall p | p in s.mem.rows && s.mem.rows[p].status.Completed?
      ensures Settled(s.(mem := Drift(s.mem, l)), p)
    {
      assert Settled(s, p);
    }
  }

  lemma NextKeepsGuardInv(cfg: Config, s: State, l: Label)
    requires Sane(cfg) && Inv(cfg, s) && GuardInv(s) && GuardKept(s, l)
    ensures GuardInv(Next(cfg, s, l))
  {
    hide Inv, Move, GuardInv, Drift;
    match l {
      case Act(a, answer) =>
        if a in s.actors {
          ActKeepsGuardInv(cfg, s, a, answer);
        }
      case Arrive(a, req) => RestKeepsGuardInv(s, a, ReadCache(req));
      case Deliver(a, cb) => RestKeepsGuardInv(s, a, TakeGuard(cb));
      case Beat(a) => RestKeepsGuardInv(s, a, Select(s.mem.now - STALE_AFTER));
      case Crash(a) => RestKeepsGuardInv(s, a, Crashed);
      case Cancel(a) =>
        if a in s.actors {
          RestKeepsGuardInv(s, a, Unwound(s.actors[a]));
        }
      case _ => DriftKeepsGuardInv(s, l);
    }
  }

  lemma {:induction false} GuardInvAlways(cfg: Config, ls: seq<Label>)
    requires Sane(cfg) && GuardsKept(cfg, ls)
    ensures GuardInv(Run(cfg, ls))
  {
    hide Next, GuardInv;
    if ls == [] {
      InitialGuards();
    } else {
      var n := |ls| - 1;
      GuardsKeptPrefix(cfg, ls, n);
      GuardInvAlways(cfg, ls[..n]);
      InvAlways(cfg, ls[..n]);
      assert GuardKept(Run(cfg, ls[..n]), ls[n]);
      NextKeepsGuardInv(cfg, Run(cfg, ls[..n]), ls[n]);
    }
  }

  lemma InitialGuards()
    ensures GuardInv(Initial())
  {
  }

  lemma GuardsKeptPrefix(cfg: Config, ls: seq<Label>, n: nat)
    requires GuardsKept(cfg, ls) && n <= |ls|
    ensures GuardsKept(cfg, ls[..n])
  {
    forall k | 0 <= k < n
      ensures GuardKept(Run(cfg, ls[..n][..k]), ls[..n][k])
    {
      assert ls[..n][..k] == ls[..k];
      assert GuardKept(Run(cfg, ls[..k]), ls[k]);
    }
  }

  // ----- Leaving COMPLETED ------------------------------------------------------------------------

  /** The label is the sweep's UPDATE reaching row `p`, unguarded by a status test. */
  predicate SweptBy(cfg: Config, s: State, l: Label, p: PaymentId) {
    && l.Act? && l.actor in s.actors && s.actors[l.actor].Sweeping? && l.answer.Db? && !l.answer.db.DbDown?
    && s.actors[l.actor].batch != [] && s.actors[l.actor].batch[0].id == p
    && !cfg.sweepTestsStatus
  }

  /** The label is a callback's failure outcome reaching row `p`. */
  predicate FailedBy(s: State, l: Label, p: PaymentId) {
    && l.Act? && l.actor in s.actors && s.actors[l.actor].ApplyOutcome? && l.answer.Db? && !l.answer.db.DbDown?
    && s.actors[l.actor].id == p && s.actors[l.actor].cb.code != 0
  }

  /** In every run, guards kept or not: a COMPLETED row leaves COMPLETED by one of these two and by nothing else. */
  lemma CompletedLeavesIff(cfg: Config, ls: seq<Label>, l: Label, p: PaymentId)
    requires Sane(cfg) && p in Run(cfg, ls).mem.rows && Run(cfg, ls).mem.rows[p].status.Completed?
    ensures p in Next(cfg, Run(cfg, ls), l).mem.rows
    ensures !Next(cfg, Run(cfg, ls), l).mem.rows[p].status.Completed? <==>
              SweptBy(cfg, Run(cfg, ls), l, p) || FailedBy(Run(cfg, ls), l, p)
  {
    InvAlways(cfg, ls);
    LeavesCompleted(cfg, Run(cfg, ls), l, p);
  }

  lemma LeavesCompleted(cfg: Config, s: State, l: Label, p: PaymentId)
    requires Sane(cfg) && Inv(cfg, s)
    requires p in s.mem.rows && s.mem.rows[p].status.Completed?
    ensures p in Next(cfg, s, l).mem.rows
    ensures !Next(cfg, s, l).mem.rows[p].status.Completed? <==> SweptBy(cfg, s, l, p) || FailedBy(s, l, p)
  {
    hide TableOk, LogOk, CacheOk, Move;
    if l.Act? && l.actor in s.actors {
      var x := s.actors[l.actor];
      assert ActorOk(cfg, s.mem, x);
      assert x.Sweeping? && x.batch != [] ==> x.batch[0] in x.batch;
      HeldIsNotMatched(cfg, s, l.actor, p);
      MoveRows(cfg, s.mem, x, l.answer);
      MoveRow(cfg, s.mem, x, l.answer, p);
      if Statement(cfg, s.mem, x).Some? && l.answer.Db? {
        SettleShape(s.mem.rows, Statement(cfg, s.mem, x).value, l.answer.db);
      }
    }
  }

  lemma HeldIsNotMatched(cfg: Config, s: State, a: ActorId, p: PaymentId)
    requires Inv(cfg, s) && a in s.actors && p in s.mem.rows
    requires s.mem.rows[p].status.Completed? || s.mem.rows[p].status.Cancelled?
    ensures HeldId(s.actors[a]) != Some(p)
  {
    assert RowOk(s.mem.rows[p]) && ActorOk(cfg, s.mem, s.actors[a]);
  }

  /** Under kept guards no second outcome arrives, so only the sweep is left. */
  lemma CompletedLeavesOnlyBySweep(cfg: Config, ls: seq<Label>, l: Label, p: PaymentId)
    requires Sane(cfg) && GuardsKept(cfg, ls)
    requires p in Run(cfg, ls).mem.rows && Run(cfg, ls).mem.rows[p].status.Completed?
    ensures p in Next(cfg, Run(cfg, ls), l).mem.rows
    ensures !Next(cfg, Run(cfg, ls), l).mem.rows[p].status.Completed? <==> SweptBy(cfg, Run(cfg, ls), l, p)
  {
    CompletedLeavesIff(cfg, ls, l, p);
    InvAlways(cfg, ls);
    GuardInvAlways(cfg, ls);
    NotFailedBehindGuard(cfg, Run(cfg, ls), l, p);
  }

  lemma NotFailedBehindGuard(cfg: Config, s: State, l: Label, p: PaymentId)
    requires Inv(cfg, s) && GuardInv(s) && p in s.mem.rows && s.mem.rows[p].status.Completed?
    ensures !FailedBy(s, l, p)
  {
    hide MemoryOk;
    assert Settled(s, p);
    if l.Act? && l.actor in s.actors {
      assert ActorOk(cfg, s.mem, s.actors[l.actor]);
    }
  }

  /** The label at position `n` is the sweep `a` selecting its batch, with row `p` read as PENDING. */
  predicate SelectedPending(cfg: Config, ls: seq<Label>, n: nat, a: ActorId, p: PaymentId)
    requires n < |ls|
  {
    && ls[n].Act? && ls[n].actor == a && ls[n].answer.Batch? && p in ls[n].answer.ids
    && p in Run(cfg, ls[..n]).mem.rows && Run(cfg, ls[..n]).mem.rows[p].status.Pending?
  }

  /** Every row in a sweep's hands was PENDING when that sweep selected it. */
  lemma {:induction false} SweepSawPending(cfg: Config, ls: seq<Label>, a: ActorId, c: Candidate)
    requires a in Run(cfg, ls).actors && Run(cfg, ls).actors[a].Sweeping? && c in Run(cfg, ls).actors[a].batch
    ensures exists n :: 0 <= n < |ls| && SelectedPending(cfg, ls, n, a, c.id)
  {
    hide Next;
    assert ls != [];
    var n := |ls| - 1;
    var s := Run(cfg, ls[..n]);
    BatchOrigin(cfg, s, ls[n], a, c);
    if a in s.actors && s.actors[a].Sweeping? && c in s.actors[a].batch {
      SweepSawPending(cfg, ls[..n], a, c);
      var k :| 0 <= k < n && SelectedPending(cfg, ls[..n], k, a, c.id);
      assert ls[..n][..k] == ls[..k];
      assert SelectedPending(cfg, ls, k, a, c.id);
    } else {
      assert SelectedPending(cfg, ls, n, a, c.id);
    }
  }

  lemma BatchOrigin(cfg: Config, s: State, l: Label, a: ActorId, c: Candidate)
    requires
      var s' := Next(cfg, s, l);
      a in s'.actors && s'.actors[a].Sweeping? && c in s'.actors[a].batch
    ensures (a in s.actors && s.actors[a].Sweeping? && c in s.actors[a].batch) ||
            (l.Act? && l.actor == a && l.answer.Batch? && c.id in l.answer.ids &&
             c.id in s.mem.rows && s.mem.rows[c.id].status.Pending?)
  {
    hide Settle, Raises, Violates;
    if !By(l, a) {
      OthersLeave(cfg, s, l, a);
    }
  }

  /** The two together: what takes a row out of COMPLETED is a sweep that had read it as PENDING before. */
  lemma OverwrittenByStaleSweep(cfg: Config, ls: seq<Label>, l: Label, p: PaymentId)
    requires Sane(cfg) && GuardsKept(cfg, ls)
    requires p in Run(cfg, ls).mem.rows && Run(cfg, ls).mem.rows[p].status.Completed?
    requires p in Next(cfg, Run(cfg, ls), l).mem.rows && !Next(cfg, Run(cfg, ls), l).mem.rows[p].status.Completed?
    ensures l.Act? && exists n :: 0 <= n < |ls| && SelectedPending(cfg, ls, n, l.actor, p)
  {
    CompletedLeavesOnlyBySweep(cfg, ls, l, p);
    var batch := Run(cfg, ls).actors[l.actor].batch;
    assert batch[0] in batch;
    SweepSawPending(cfg, ls, l.actor, batch[0]);
  }

  /** With a status test in the sweep's UPDATE, COMPLETED is absorbing under kept guards. */
  lemma {:induction false} CompletedIsAbsorbing(cfg: Config, ls: seq<Label>, more: seq<Label>, p: PaymentId)
    requires Sane(cfg) && cfg.sweepTestsStatus && GuardsKept(cfg, ls + more)
    requires p in Run(cfg, ls).mem.rows && Run(cfg, ls).mem.rows[p].status.Completed?
    ensures p in Run(cfg, ls + more).mem.rows && Run(cfg, ls + more).mem.rows[p].status.Completed?
    decreases |more|
  {
    hide Next, GuardsKept;
    if more == [] {
      assert ls + more == ls;
    } else {
      var n := |more| - 1;
      var before := ls + more[..n];
      assert before == (ls + more)[..|before|];
      GuardsKeptPrefix(cfg, ls + more, |before|);
      CompletedIsAbsorbing(cfg, ls, more[..n], p);
      RunExtends(cfg, Initial(), before, ls + more, more[n]);
      CompletedLeavesOnlyBySweep(cfg, before, more[n], p);
    }
  }

  // ----- Leaving PENDING --------------------------------------------------------------------------

  lemma NextStaysSettled(cfg: Config, s: State, l: Label, p: PaymentId)
    requires p in s.mem.rows && !s.mem.rows[p].status.Pending?
    requires Sane(cfg) && Inv(cfg, s)
    ensures p in Next(cfg, s, l).mem.rows && !Next(cfg, s, l).mem.rows[p].status.Pending?
  {
    hide Inv, Move;
    if l.Act? && l.actor in s.actors {
      MoveRow(cfg, s.mem, s.actors[l.actor], l.answer, p);
    }
  }

  /** PENDING is left once and for all, guards kept or not. */
  lemma {:induction false} PendingIsNeverRegained(cfg: Config, ls: seq<Label>, more: seq<Label>, p: PaymentId)
    requires Sane(cfg) && p in Run(cfg, ls).mem.rows && !Run(cfg, ls).mem.rows[p].status.Pending?
    ensures p in Run(cfg, ls + more).mem.rows && !Run(cfg, ls + more).mem.rows[p].status.Pending?
    decreases |more|
  {
    hide Next, Inv;
    if more == [] {
      assert ls + more == ls;
    } else {
      var n := |more| - 1;
      PendingIsNeverRegained(cfg, ls, more[..n], p);
      InvAlways(cfg, ls + more[..n]);
      RunExtends(cfg, Initial(), ls + more[..n], ls + more, more[n]);
      NextStaysSettled(cfg, Run(cfg, ls + more[..n]), more[n], p);
    }
  }

  // ----- Leaving FAILED and CANCELLED -------------------------------------------------------------

  /** The label is a callback's outcome reaching row `p`, with effect. */
  predicate OutcomeReaches(s: State, l: Label, p: PaymentId) {
    && l.Act? && l.actor in s.actors && s.actors[l.actor].ApplyOutcome? && l.answer.Db? && !l.answer.db.DbDown?
    && s.actors[l.actor].id == p && (s.actors[l.actor].cb.code == 0 ==> Succeeds(s.actors[l.actor].cb))
  }

  /**
   FAILED and CANCELLED are not final either, although the lookup answers from them as if they were: in every
   run a FAILED row leaves FAILED exactly when a callback that reports success or the user's cancellation
   takes effect on it; a CANCELLED row leaves CANCELLED exactly when any other callback's outcome does, or an
   untested sweep update reaches it.
   */
  lemma OutcomesAreNotFinal(cfg: Config, ls: seq<Label>, l: Label, p: PaymentId)
    requires Sane(cfg) && p in Run(cfg, ls).mem.rows
    ensures p in Next(cfg, Run(cfg, ls), l).mem.rows
    ensures Run(cfg, ls).mem.rows[p].status.Failed? ==>
              (!Next(cfg, Run(cfg, ls), l).mem.rows[p].status.Failed? <==>
                 OutcomeReaches(Run(cfg, ls), l, p) && Run(cfg, ls).actors[l.actor].cb.code in {0, USER_CANCELLED})
    ensures Run(cfg, ls).mem.rows[p].status.Cancelled? ==>
              (!Next(cfg, Run(cfg, ls), l).mem.rows[p].status.Cancelled? <==>
                 SweptBy(cfg, Run(cfg, ls), l, p) ||
                 (OutcomeReaches(Run(cfg, ls), l, p) && Run(cfg, ls).actors[l.actor].cb.code != USER_CANCELLED))
  {
    InvAlways(cfg, ls);
    var s := Run(cfg, ls);
    if s.mem.rows[p].status.Failed? {
      LeavesFailed(cfg, s, l, p);
    } else if s.mem.rows[p].status.Cancelled? {
      LeavesCancelled(cfg, s, l, p);
    } else {
      NextGrows(cfg, s, l);
    }
  }

  lemma LeavesFailed(cfg: Config, s: State, l: Label, p: PaymentId)
    requires Sane(cfg) && Inv(cfg, s) && p in s.mem.rows && s.mem.rows[p].status.Failed?
    ensures p in Next(cfg, s, l).mem.rows
    ensures !Next(cfg, s, l).mem.rows[p].status.Failed? <==>
              OutcomeReaches(s, l, p) && s.actors[l.actor].cb.code in {0, USER_CANCELLED}
  {
    hide MemoryOk, Move;
    if l.Act? && l.actor in s.actors {
      var x := s.actors[l.actor];
      assert ActorOk(cfg, s.mem, x);
      MoveRows(cfg, s.mem, x, l.answer);
      MoveRow(cfg, s.mem, x, l.answer, p);
      if Statement(cfg, s.mem, x).Some? && l.answer.Db? {
        SettleShape(s.mem.rows, Statement(cfg, s.mem, x).value, l.answer.db);
      }
    }
  }

  lemma LeavesCancelled(cfg: Config, s: State, l: Label, p: PaymentId)
    requires Sane(cfg) && Inv(cfg, s) && p in s.mem.rows && s.mem.rows[p].status.Cancelled?
    ensures p in Next(cfg, s, l).mem.rows
    ensures !Next(cfg, s, l).mem.rows[p].status.Cancelled? <==>
              SweptBy(cfg, s, l, p) ||
              (OutcomeReaches(s, l, p) && s.actors[l.actor].cb.code != USER_CANCELLED)
  {
    hide MemoryOk, Move;
    if l.Act? && l.actor in s.actors {
      var x := s.actors[l.actor];
      assert ActorOk(cfg, s.mem, x);
      assert x.Sweeping? && x.batch != [] ==> x.batch[0] in x.batch && !Queried(x.batch[0]);
      HeldIsNotMatched(cfg, s, l.actor, p);
      MoveRows(cfg, s.mem, x, l.answer);
      MoveRow(cfg, s.mem, x, l.answer, p);
      if Statement(cfg, s.mem, x).Some? && l.answer.Db? {
        SettleShape(s.mem.rows, Statement(cfg, s.mem, x).value, l.answer.db);
      }
    }
  }

  // ----- The races, step by step ------------------------------------------------------------------

  /** Ten minutes later sweep 1 selects the payment. */
  const SELECTION: seq<Label> := [Tick(601), Beat(1), Act(1, Batch([7]))]

  /** Payment 7 is initiated by actor 0 and selected by sweep 1. */
  function Selected(req: Request, checkout: string, merchant: string): seq<Label> {
    Approach(0, req, 7) + Push(0, checkout, merchant) + SELECTION
  }

  /** Then callback 2 completes it. */
  function Race(req: Request, cb: Callback, merchant: string): seq<Label> {
    Selected(req, cb.checkout, merchant) + Completion(2, cb, 7)
  }

  /** Or the sweep fails it first. */
  function LateCallback(req: Request, cb: Callback, merchant: string): seq<Label> {
    Selected(req, cb.checkout, merchant) + [Act(1, Db(DbOk))] + Completion(2, cb, 7)
  }

  lemma SelectionReads(cfg: Config, s: State, row: Payment)
    requires s.mem.rows == map[7 := row] && row.status.Pending? && row.receipt.None? && row.createdAt == 0
    requires s.mem.now == 0 && 1 !in s.actors
    ensures
      RunFrom(cfg, s, SELECTION) == State(s.mem.(now := 601), s.actors[1 := Sweeping([Candidate(7, None)])])
  {
    var s1 := s.(mem := s.mem.(now := 601));
    var s2 := s1.(actors := s.actors[1 := Select(1)]);
    var s3 := s1.(actors := s.actors[1 := Sweeping([Candidate(7, None)])]);
    assert Selects(s.mem.rows, 1, [7]);
    assert Candidates(s.mem.rows, [7]) == [Candidate(7, None)];
    RunIsTrace(cfg, [s, s1, s2, s3], SELECTION);
  }

  lemma SelectedRun(cfg: Config, req: Request, checkout: string, merchant: string)
    requires req.amount > 0
    ensures
      var s := Run(cfg, Selected(req, checkout, merchant));
      && s.mem.rows == map[7 := StoredRow(req, 0, checkout, merchant)] && s.mem.guards == {}
      && s.actors.Keys == {0, 1} && s.actors[1] == Sweeping([Candidate(7, None)])
  {
    hide RunFrom, Next;
    var approached := Approach(0, req, 7);
    var pushed := approached + Push(0, checkout, merchant);
    Approaches(cfg, Initial(), 0, req, 7);
    Pushes(cfg, Run(cfg, approached), 0, req, 7, checkout, merchant);
    RunAppends(cfg, Initial(), approached, Push(0, checkout, merchant));
    assert Run(cfg, pushed).mem.rows == map[7 := StoredRow(req, 0, checkout, merchant)];
    SelectionReads(cfg, Run(cfg, pushed), StoredRow(req, 0, checkout, merchant));
    RunAppends(cfg, Initial(), pushed, SELECTION);
  }

  lemma SweepWrites(cfg: Config, s: State)
    requires 7 in s.mem.rows && 1 in s.actors && s.actors[1] == Sweeping([Candidate(7, None)])
    ensures
      var rows := s.mem.rows;
      Next(cfg, s, Act(1, Db(DbOk)))
        == State(s.mem.(rows := rows[7 := Updated(rows[7], Expire(7, cfg.sweepTestsStatus))]),
                 s.actors[1 := Sweeping([])])
  {
    assert [Candidate(7, None)][1..] == [];
  }

  /**
   As written, for every request and every successful callback for it, this race is a run with all guards
   kept: the payment is COMPLETED, and the sweep's next step makes it FAILED, its receipt still in place.
   */
  lemma SweepOverwritesCompleted(cfg: Config, req: Request, cb: Callback, merchant: string)
    requires !cfg.sweepTestsStatus && req.amount > 0 && Succeeds(cb)
    ensures GuardsKept(cfg, Race(req, cb, merchant))
    ensures
      var s := Run(cfg, Race(req, cb, merchant));
      var s' := Next(cfg, s, Act(1, Db(DbOk)));
      && 7 in s.mem.rows && s.mem.rows[7].status.Completed?
      && 7 in s'.mem.rows && s'.mem.rows[7].status.Failed? && s'.mem.rows[7].receipt == cb.receipt
  {
    hide RunFrom, Next;
    var selected := Selected(req, cb.checkout, merchant);
    SelectedRun(cfg, req, cb.checkout, merchant);
    Completes(cfg, Run(cfg, selected), 2, cb, 7);
    RunAppends(cfg, Initial(), selected, Completion(2, cb, 7));
    SweepWrites(cfg, Run(cfg, Race(req, cb, merchant)));
    RedisUpKeepsGuards(cfg, Race(req, cb, merchant));
  }

  /** The other way round: a payment that the sweep has FAILED is COMPLETED by its late callback. */
  lemma LateCallbackCompletesFailed(cfg: Config, req: Request, cb: Callback, merchant: string)
    requires req.amount > 0 && Succeeds(cb)
    ensures GuardsKept(cfg, LateCallback(req, cb, merchant))
    ensures
      var s := Run(cfg, Selected(req, cb.checkout, merchant) + [Act(1, Db(DbOk))]);
      var s' := Run(cfg, LateCallback(req, cb, merchant));
      && 7 in s.mem.rows && s.mem.rows[7].status.Failed?
      && 7 in s'.mem.rows && s'.mem.rows[7].status.Completed? && s'.mem.rows[7].failureReason == Some(NO_CALLBACK)
  {
    hide RunFrom, Next;
    var selected := Selected(req, cb.checkout, merchant);
    var swept := selected + [Act(1, Db(DbOk))];
    SelectedRun(cfg, req, cb.checkout, merchant);
    SweepWrites(cfg, Run(cfg, selected));
    RunExtends(cfg, Initial(), selected, swept, Act(1, Db(DbOk)));
    Completes(cfg, Run(cfg, swept), 2, cb, 7);
    RunAppends(cfg, Initial(), swept, Completion(2, cb, 7));
    RedisUpKeepsGuards(cfg, LateCallback(req, cb, merchant));
  }

  lemma RedisUpKeepsGuards(cfg: Config, ls: seq<Label>)
    requires forall l :: l in ls ==> !l.LoseGuard? && (l.Act? && l.answer.Redis? ==> l.answer.redis.Up?)
    ensures GuardsKept(cfg, ls)
  {
    forall n | 0 <= n < |ls|
      ensures GuardKept(Run(cfg, ls[..n]), ls[n])
    {
      assert ls[n] in ls;
    }
  }
}
