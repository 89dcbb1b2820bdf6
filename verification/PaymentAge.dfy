/**
 How old a payment is: every row was committed by one initiation at one point of the run, and the sweep reaches
 none before its ten minutes are over.
 */
module PaymentAge {
  import opened Basics
  import opened Payments
  import opened StkProtocol
  import opened StkInvariant

  /** A new payment for the request: PENDING, created at `now`, and empty otherwise. */
  predicate StandsFor(row: Payment, req: Request, now: int) {
    && row.key == req.key && row.phone == req.phone && row.amount == req.amount && row.createdAt == now
    && row.status == Pending && row.checkout == None && row.merchant == None && row.receipt == None
    && row.amountPaid == None && row.paidAt == None && row.failureReason == None && row.resultCode == None
  }

  /** Label `l` makes an initiation commit row `p` for its request. */
  predicate Inserts(cfg: Config, s: State, l: Label, p: PaymentId) {
    && l.Act? && l.actor in s.actors && s.actors[l.actor].Insert? && s.actors[l.actor].id == p
    && p !in s.mem.rows && p in Next(cfg, s, l).mem.rows
    && StandsFor(Next(cfg, s, l).mem.rows[p], s.actors[l.actor].req, s.mem.now)
  }

  /** At position `n` of the run payment `p` is created. */
  predicate CreatedAt(cfg: Config, ls: seq<Label>, p: PaymentId, n: nat) {
    n < |ls| && Inserts(cfg, Run(cfg, ls[..n]), ls[n], p)
  }

  /** Every row is created at one position of the run, with the time of that moment, and keeps it. */
  lemma {:induction false} EveryPaymentWasCreated(cfg: Config, ls: seq<Label>, p: PaymentId)
    requires Sane(cfg) && p in Run(cfg, ls).mem.rows
    ensures exists n :: CreatedAt(cfg, ls, p, n)
    ensures
      var row := Run(cfg, ls).mem.rows[p];
      forall n: nat :: CreatedAt(cfg, ls, p, n) ==> row.createdAt == Run(cfg, ls[..n]).mem.now
    decreases |ls|
  {
    hide Next, Inv, Inserts;
    assert ls != [];
    var m := |ls| - 1;
    var s := Run(cfg, ls[..m]);
    assert forall k :: 0 <= k < m ==> ls[..m][..k] == ls[..k] && ls[..m][k] == ls[k];
    assert forall k :: 0 <= k < m ==> (CreatedAt(cfg, ls, p, k) <==> CreatedAt(cfg, ls[..m], p, k));
    if p in s.mem.rows {
      NotTwice(cfg, s, ls[m], p);
      EveryPaymentWasCreated(cfg, ls[..m], p);
      InvAlways(cfg, ls[..m]);
      NextGrows(cfg, s, ls[m]);
      forall n: nat | CreatedAt(cfg, ls, p, n)
        ensures CreatedAt(cfg, ls[..m], p, n) && ls[..m][..n] == ls[..n]
      {
        assert n != m;
      }
    } else {
      NewRow(cfg, s, ls[m], p);
      NotBefore(cfg, ls, m, p);
      assert CreatedAt(cfg, ls, p, m);
    }
  }

  lemma NotTwice(cfg: Config, s: State, l: Label, p: PaymentId)
    requires p in s.mem.rows
    ensures !Inserts(cfg, s, l, p)
  {
  }

  lemma NewRow(cfg: Config, s: State, l: Label, p: PaymentId)
    requires p !in s.mem.rows && p in Next(cfg, s, l).mem.rows
    ensures Inserts(cfg, s, l, p) && Next(cfg, s, l).mem.rows[p].createdAt == s.mem.now
  {
    hide Move;
    MoveRows(cfg, s.mem, s.actors[l.actor], l.answer);
    var w := Statement(cfg, s.mem, s.actors[l.actor]).value;
    SettleShape(s.mem.rows, w, l.answer.db);
  }

  /** A row that is not there yet has not been created. */
  lemma {:induction false} NotBefore(cfg: Config, ls: seq<Label>, n: nat, p: PaymentId)
    requires Sane(cfg) && n <= |ls| && p !in Run(cfg, ls[..n]).mem.rows
    ensures forall k :: 0 <= k < n ==> !CreatedAt(cfg, ls, p, k)
  {
    forall k | 0 <= k < n
      ensures !CreatedAt(cfg, ls, p, k)
    {
      if CreatedAt(cfg, ls, p, k) {
        assert ls[..k + 1][..k] == ls[..k] && ls[..k + 1] + ls[k + 1..n] == ls[..n];
        RunGrows(cfg, ls[..k + 1], ls[k + 1..n]);
      }
    }
  }

  // ----- The sweep and young payments -------------------------------------------------------------

  /** What a sweep has selected is older than ten minutes. */
  ghost predicate BatchesAreOld(s: State) {
    forall a :: a in s.actors ==>
      (s.actors[a].Select? ==> s.actors[a].cutoff <= s.mem.now - 600) &&
      (s.actors[a].Sweeping? ==> BatchIsOld(s.mem, s.actors[a].batch))
  }

  ghost predicate BatchIsOld(m: Memory, batch: seq<Candidate>) {
    forall c <- batch :: c.id in m.rows && m.rows[c.id].createdAt < m.now - 600
  }

  lemma BatchStaysOld(m: Memory, m': Memory, batch: seq<Candidate>)
    requires BatchIsOld(m, batch) && Extends(m.rows, m'.rows) && m.now <= m'.now
    ensures BatchIsOld(m', batch)
  {
  }

  lemma MoveKeepsBatch(cfg: Config, m: Memory, x: Actor, answer: Answer)
    requires Extends(m.rows, Move(cfg, m, x, answer).mem.rows)
    requires x.Select? ==> x.cutoff <= m.now - 600
    requires x.Sweeping? ==> BatchIsOld(m, x.batch)
    ensures
      var step := Move(cfg, m, x, answer);
      && step.mem.now == m.now
      && (step.actor.Select? ==> step.actor.cutoff <= m.now - 600)
      && (step.actor.Sweeping? ==> BatchIsOld(step.mem, step.actor.batch))
  {
    hide Settle, Raises, Violates, Extends;
    if x.Sweeping? && answer.Db? {
      BatchStaysOld(m, Move(cfg, m, x, answer).mem, x.batch);
    }
  }

  lemma NextKeepsBatches(cfg: Config, s: State, l: Label)
    requires Sane(cfg) && Inv(cfg, s) && BatchesAreOld(s)
    ensures BatchesAreOld(Next(cfg, s, l)) && s.mem.now <= Next(cfg, s, l).mem.now
  {
    hide Inv, Move, BatchIsOld, Extends;
    NextGrows(cfg, s, l);
    var s' := Next(cfg, s, l);
    if l.Act? && l.actor in s.actors {
      MoveKeepsBatch(cfg, s.mem, s.actors[l.actor], l.answer);
    }
    forall a | a in s.actors && s.actors[a].Sweeping?
      ensures BatchIsOld(s'.mem, s.actors[a].batch)
    {
      BatchStaysOld(s.mem, s'.mem, s.actors[a].batch);
    }
    NothingIsOld(s'.mem);
  }

  lemma NothingIsOld(m: Memory)
    ensures BatchIsOld(m, [])
  {
  }

  lemma {:induction false} BatchesAlwaysOld(cfg: Config, ls: seq<Label>)
    requires Sane(cfg)
    ensures BatchesAreOld(Run(cfg, ls))
  {
    hide Next, Inv, BatchesAreOld;
    if ls == [] {
      NoBatches();
    } else {
      BatchesAlwaysOld(cfg, ls[..|ls| - 1]);
      InvAlways(cfg, ls[..|ls| - 1]);
      NextKeepsBatches(cfg, Run(cfg, ls[..|ls| - 1]), ls[|ls| - 1]);
    }
  }

  lemma NoBatches()
    ensures BatchesAreOld(Initial())
  {
  }

  /**
   In every run, whatever a sweep has in hand was created more than 600 seconds ago; so a label of a sweep leaves
   every younger payment as it is.
   */
  lemma YoungPaymentsAreSpared(cfg: Config, ls: seq<Label>, a: ActorId, answer: Answer, p: PaymentId, n: nat)
    requires Sane(cfg) && CreatedAt(cfg, ls, p, n)
    requires a in Run(cfg, ls).actors && Run(cfg, ls).actors[a].Sweeping?
    ensures
      var s := Run(cfg, ls);
      var age := s.mem.now - Run(cfg, ls[..n]).mem.now;
      && p in s.mem.rows && p in Next(cfg, s, Act(a, answer)).mem.rows
      && (forall c <- s.actors[a].batch :: c.id == p ==> age > 600)
      && (age <= 600 ==> Next(cfg, s, Act(a, answer)).mem.rows[p] == s.mem.rows[p])
  {
    hide Inv, Inserts, Move, Run;
    CreatedIsThere(cfg, ls, p, n);
    EveryPaymentWasCreated(cfg, ls, p);
    BatchesAlwaysOld(cfg, ls);
    var s := Run(cfg, ls);
    MoveRow(cfg, s.mem, s.actors[a], answer, p);
  }

  lemma CreatedIsThere(cfg: Config, ls: seq<Label>, p: PaymentId, n: nat)
    requires Sane(cfg) && CreatedAt(cfg, ls, p, n)
    ensures p in Run(cfg, ls).mem.rows
  {
    hide Next;
    RunExtends(cfg, Initial(), ls[..n], ls[..n + 1], ls[n]);
    assert p in Run(cfg, ls[..n + 1]).mem.rows;
    assert ls[..n + 1] + ls[n + 1..] == ls;
    RunGrows(cfg, ls[..n + 1], ls[n + 1..]);
  }

  /** Payment `p` was created more than ten minutes ago. */
  ghost predicate OutOfTime(cfg: Config, ls: seq<Label>, p: PaymentId) {
    forall n: nat :: CreatedAt(cfg, ls, p, n) ==> Run(cfg, ls).mem.now - Run(cfg, ls[..n]).mem.now > 600
  }

  lemma SweepInsertsNothing(cfg: Config, s: State, l: Label, p: PaymentId)
    requires l.Act? && l.actor in s.actors && s.actors[l.actor].Sweeping?
    ensures !Inserts(cfg, s, l, p)
  {
  }

  lemma TimeStands(cfg: Config, m: Memory, x: Actor, answer: Answer)
    ensures Move(cfg, m, x, answer).mem.now == m.now
  {
    hide Settle, Raises;
  }

  lemma SweptIsOutOfTime(cfg: Config, ls: seq<Label>, a: ActorId, answer: Answer, swept: seq<Label>)
    requires Sane(cfg) && swept == ls + [Act(a, answer)] && a in Run(cfg, ls).actors
    requires Run(cfg, ls).actors[a].Sweeping? && Run(cfg, ls).actors[a].batch != []
    ensures OutOfTime(cfg, swept, Run(cfg, ls).actors[a].batch[0].id)
  {
    hide Move, RunFrom, Inserts;
    var s := Run(cfg, ls);
    var p := s.actors[a].batch[0].id;
    RunExtends(cfg, Initial(), ls, swept, Act(a, answer));
    assert swept[..|ls|] == ls;
    TimeStands(cfg, s.mem, s.actors[a], answer);
    SweepInsertsNothing(cfg, s, Act(a, answer), p);
    forall n: nat | CreatedAt(cfg, swept, p, n)
      ensures Run(cfg, swept).mem.now - Run(cfg, swept[..n]).mem.now > 600
    {
      assert n != |ls|;
      assert swept[..n] == ls[..n] && swept[n] == ls[n];
      YoungPaymentsAreSpared(cfg, ls, a, answer, p, n);
      assert s.actors[a].batch[0] in s.actors[a].batch;
    }
  }

  lemma {:induction false} TimeMovesOn(cfg: Config, ls: seq<Label>, more: seq<Label>)
    ensures Run(cfg, ls).mem.now <= Run(cfg, ls + more).mem.now
    decreases |more|
  {
    hide Move;
    if more == [] {
      assert ls + more == ls;
    } else {
      var n := |more| - 1;
      TimeMovesOn(cfg, ls, more[..n]);
      RunExtends(cfg, Initial(), ls + more[..n], ls + more, more[n]);
      var s := Run(cfg, ls + more[..n]);
      if more[n].Act? && more[n].actor in s.actors {
        TimeStands(cfg, s.mem, s.actors[more[n].actor], more[n].answer);
      }
    }
  }

  /** A payment that is out of time stays so. */
  lemma StaysOutOfTime(cfg: Config, ls: seq<Label>, longer: seq<Label>, p: PaymentId)
    requires Sane(cfg) && ls <= longer && p in Run(cfg, ls).mem.rows && OutOfTime(cfg, ls, p)
    ensures OutOfTime(cfg, longer, p)
  {
    hide Run, Inserts;
    assert longer == ls + longer[|ls|..];
    TimeMovesOn(cfg, ls, longer[|ls|..]);
    forall n: nat | CreatedAt(cfg, longer, p, n)
      ensures Run(cfg, longer).mem.now - Run(cfg, longer[..n]).mem.now > 600
    {
      if n < |ls| {
        assert longer[..n] == ls[..n] && longer[n] == ls[n];
        assert CreatedAt(cfg, ls, p, n);
      } else {
        assert longer[..n] == ls + longer[|ls|..n];
        RunGrows(cfg, ls, longer[|ls|..n]);
        NotTwice(cfg, Run(cfg, longer[..n]), longer[n], p);
      }
    }
  }
}
