/**
 Pieces of runs, from which the modules about false or lost promises put together the runs that show them:
 one initiation from its arrival to the storing of Daraja's ids, and one callback that completes its payment.
 */
module Scenarios {
  import opened Basics
  import opened Payments
  import opened StkProtocol

  // ----- One actor at a time ----------------------------------------------------------------------

  function Acts(a: ActorId, answers: seq<Answer>): seq<Label> {
    seq(|answers|, i requires 0 <= i < |answers| => Act(a, answers[i]))
  }

  /** A run of one actor, given by the steps it goes through; nobody else moves. */
  lemma {:induction false} Course(cfg: Config, s: State, a: ActorId, answers: seq<Answer>, steps: seq<Step>)
    requires a in s.actors && |steps| == |answers| + 1 && steps[0] == Step(s.mem, s.actors[a])
    requires forall i :: 0 <= i < |answers| ==> Move(cfg, steps[i].mem, steps[i].actor, answers[i]) == steps[i + 1]
    ensures RunFrom(cfg, s, Acts(a, answers)) == State(steps[|answers|].mem, s.actors[a := steps[|answers|].actor])
    decreases |answers|
  {
    hide Move;
    if answers == [] {
      assert Acts(a, answers) == [] && s.actors[a := s.actors[a]] == s.actors;
    } else {
      var n := |answers| - 1;
      Course(cfg, s, a, answers[..n], steps[..n + 1]);
      assert Acts(a, answers) == Acts(a, answers[..n]) + [Act(a, answers[n])];
      RunExtends(cfg, s, Acts(a, answers[..n]), Acts(a, answers), Act(a, answers[n]));
      var u := RunFrom(cfg, s, Acts(a, answers[..n]));
      assert Move(cfg, steps[n].mem, steps[n].actor, answers[n]) == steps[n + 1];
      assert u.actors[a := steps[n + 1].actor] == s.actors[a := steps[n + 1].actor];
    }
  }

  /** The same for an actor that first arrives. */
  lemma ArrivalAndCourse(cfg: Config, s: State, l: Label, a: ActorId, x: Actor, answers: seq<Answer>, steps: seq<Step>)
    requires a !in s.actors && Next(cfg, s, l) == s.(actors := s.actors[a := x])
    requires |steps| == |answers| + 1 && steps[0] == Step(s.mem, x)
    requires forall i :: 0 <= i < |answers| ==> Move(cfg, steps[i].mem, steps[i].actor, answers[i]) == steps[i + 1]
    ensures RunFrom(cfg, s, [l] + Acts(a, answers))
         == State(steps[|answers|].mem, s.actors[a := steps[|answers|].actor])
  {
    hide Move, Next;
    var s1 := s.(actors := s.actors[a := x]);
    RunIsTrace(cfg, [s, s1], [l]);
    Course(cfg, s1, a, answers, steps);
    RunAppends(cfg, s, [l], Acts(a, answers));
    assert s1.actors[a := steps[|answers|].actor] == s.actors[a := steps[|answers|].actor];
  }

  /** A key of Redis expires or is lost. */
  lemma KeyIsLost(cfg: Config, s: State, l: Label)
    requires l.LoseLock? || l.LoseCache? || l.LoseGuard?
    ensures RunFrom(cfg, s, [l]) == s.(mem := Drift(s.mem, l))
  {
    RunIsTrace(cfg, [s, s.(mem := Drift(s.mem, l))], [l]);
  }

  // ----- An initiation ----------------------------------------------------------------------------

  /** Actor `a` takes the lock of its key and finds no final payment ... */
  function Approach(a: ActorId, req: Request, id: PaymentId): seq<Label> {
    [Arrive(a, req)] + Acts(a, [Redis(Up), Redis(Up), NotFound(id)])
  }

  /** ... commits its row and has its request accepted ... */
  function Acceptance(a: ActorId, checkout: string, merchant: string): seq<Label> {
    Acts(a, [Db(DbOk), CircuitClosed, Accepted(checkout, merchant)])
  }

  /** ... and stores Daraja's ids. */
  function Push(a: ActorId, checkout: string, merchant: string): seq<Label> {
    Acceptance(a, checkout, merchant) + Acts(a, [Db(DbOk)])
  }

  function StoredRow(req: Request, now: int, checkout: string, merchant: string): Payment {
    NewPayment(req.key, req.phone, req.amount, now).(checkout := Some(checkout), merchant := Some(merchant))
  }

  lemma Approaches(cfg: Config, s: State, a: ActorId, req: Request, id: PaymentId)
    requires a !in s.actors && req.key !in s.mem.cache && req.key !in s.mem.locks
    requires forall p <- s.mem.rows.Keys :: s.mem.rows[p].key == req.key ==> !Terminal(s.mem.rows[p].status)
    ensures RunFrom(cfg, s, Approach(a, req, id))
         == State(s.mem.(locks := s.mem.locks + {req.key}), s.actors[a := Insert(req, id)])
  {
    var locked := s.mem.(locks := s.mem.locks + {req.key});
    var steps := [Step(s.mem, ReadCache(req)), Step(s.mem, TakeLock(req)), Step(locked, LookUp(req)),
                  Step(locked, Insert(req, id))];
    ArrivalAndCourse(cfg, s, Arrive(a, req), a, ReadCache(req), [Redis(Up), Redis(Up), NotFound(id)], steps);
  }

  /** Nothing in the table stands in the way of a new payment `id` for `req`. */
  predicate FreeFor(rows: Table, req: Request, id: PaymentId) {
    id !in rows && req.amount > 0 && forall p <- rows.Keys :: rows[p].key != req.key
  }

  lemma InsertSettles(rows: Table, req: Request, id: PaymentId, now: int)
    requires FreeFor(rows, req, id)
    ensures Settle(rows, Anchor(req, id, now), DbOk) == rows[id := NewPayment(req.key, req.phone, req.amount, now)]
    ensures !Raises(rows, Anchor(req, id, now), DbOk)
  {
  }

  lemma IsAccepted(cfg: Config, s: State, a: ActorId, req: Request, id: PaymentId, checkout: string, merchant: string)
    requires a in s.actors && s.actors[a] == Insert(req, id) && FreeFor(s.mem.rows, req, id)
    ensures
      var events := [Initiated(id, req.key, req.phone, req.amount), Posted(id, req.key, req.phone, req.amount)];
      RunFrom(cfg, s, Acceptance(a, checkout, merchant))
        == State(s.mem.(rows := s.mem.rows[id := NewPayment(req.key, req.phone, req.amount, s.mem.now)],
                        log := s.mem.log + events),
                 s.actors[a := StoreIds(req, id, checkout, merchant)])
  {
    hide Settle, Raises;
    InsertSettles(s.mem.rows, req, id, s.mem.now);
    var m1 := s.mem.(rows := s.mem.rows[id := NewPayment(req.key, req.phone, req.amount, s.mem.now)]);
    var m2 := m1.(log := m1.log + [Initiated(id, req.key, req.phone, req.amount)]);
    var m3 := m2.(log := m2.log + [Posted(id, req.key, req.phone, req.amount)]);
    var steps := [Step(s.mem, Insert(req, id)), Step(m1, Call(req, id)), Step(m2, Attempt(req, id, 0)),
                  Step(m3, StoreIds(req, id, checkout, merchant))];
    Course(cfg, s, a, [Db(DbOk), CircuitClosed, Accepted(checkout, merchant)], steps);
    assert s.mem.log + [Initiated(id, req.key, req.phone, req.amount), Posted(id, req.key, req.phone, req.amount)]
        == m3.log;
  }

  lemma StoresIds(cfg: Config, s: State, a: ActorId, req: Request, id: PaymentId, checkout: string, merchant: string)
    requires a in s.actors && s.actors[a] == StoreIds(req, id, checkout, merchant)
    requires id in s.mem.rows && forall p <- s.mem.rows.Keys :: s.mem.rows[p].checkout != Some(checkout)
    ensures
      var row := s.mem.rows[id].(checkout := Some(checkout), merchant := Some(merchant));
      RunFrom(cfg, s, Acts(a, [Db(DbOk)]))
        == State(s.mem.(rows := s.mem.rows[id := row]),
                 s.actors[a := FillCache(req, Response(id, checkout, merchant, Pending))])
  {
    var row := s.mem.rows[id].(checkout := Some(checkout), merchant := Some(merchant));
    var steps := [Step(s.mem, s.actors[a]), Step(s.mem.(rows := s.mem.rows[id := row]),
                                                 FillCache(req, Response(id, checkout, merchant, Pending)))];
    Course(cfg, s, a, [Db(DbOk)], steps);
  }

  lemma Pushes(cfg: Config, s: State, a: ActorId, req: Request, id: PaymentId, checkout: string, merchant: string)
    requires a in s.actors && s.actors[a] == Insert(req, id) && FreeFor(s.mem.rows, req, id)
    requires forall p <- s.mem.rows.Keys :: s.mem.rows[p].checkout != Some(checkout)
    ensures
      var events := [Initiated(id, req.key, req.phone, req.amount), Posted(id, req.key, req.phone, req.amount)];
      RunFrom(cfg, s, Push(a, checkout, merchant))
        == State(s.mem.(rows := s.mem.rows[id := StoredRow(req, s.mem.now, checkout, merchant)],
                        log := s.mem.log + events),
                 s.actors[a := FillCache(req, Response(id, checkout, merchant, Pending))])
  {
    hide RunFrom;
    IsAccepted(cfg, s, a, req, id, checkout, merchant);
    var u := RunFrom(cfg, s, Acceptance(a, checkout, merchant));
    StoresIds(cfg, u, a, req, id, checkout, merchant);
    RunAppends(cfg, s, Acceptance(a, checkout, merchant), Acts(a, [Db(DbOk)]));
    var x := FillCache(req, Response(id, checkout, merchant, Pending));
    assert u.actors[a := x] == s.actors[a := x];
    var row := StoredRow(req, s.mem.now, checkout, merchant);
    assert u.mem.rows[id := row] == s.mem.rows[id := row];
  }

  // ----- A callback -------------------------------------------------------------------------------

  /** Reports success; a negative amount would be refused by the CHECK constraint. */
  predicate Succeeds(cb: Callback) {
    cb.code == 0 && (cb.amount.Some? ==> cb.amount.value >= 0.0)
  }

  /** Processor `b` wins the guard, finds payment `id` and commits the outcome. */
  function Completion(b: ActorId, cb: Callback, id: PaymentId): seq<Label> {
    [Deliver(b, cb)] + Acts(b, [Redis(Up), Found(id), Db(DbOk)])
  }

  function CompletedRow(row: Payment, cb: Callback): Payment {
    row.(status := Completed, receipt := cb.receipt, amountPaid := StoredAmount(cb.amount), paidAt := cb.paidAt)
  }

  lemma SuccessSettles(rows: Table, cb: Callback, id: PaymentId)
    requires id in rows && Succeeds(cb)
    ensures Settle(rows, CallbackWrite(cb, id), DbOk) == rows[id := CompletedRow(rows[id], cb)]
    ensures !Raises(rows, CallbackWrite(cb, id), DbOk)
  {
  }

  lemma Completes(cfg: Config, s: State, b: ActorId, cb: Callback, id: PaymentId)
    requires b !in s.actors && cb.checkout !in s.mem.guards && Succeeds(cb)
    requires id in s.mem.rows && s.mem.rows[id].checkout == Some(cb.checkout)
    ensures
      RunFrom(cfg, s, Completion(b, cb, id))
        == State(s.mem.(rows := s.mem.rows[id := CompletedRow(s.mem.rows[id], cb)],
                        guards := s.mem.guards + {cb.checkout}, admitted := s.mem.admitted + [cb]),
                 s.actors[b := CallbackEnded(cb, Applied)])
  {
    hide Settle, Raises, CallbackWrite;
    SuccessSettles(s.mem.rows, cb, id);
    var m1 := s.mem.(guards := s.mem.guards + {cb.checkout}, admitted := s.mem.admitted + [cb]);
    var m2 := m1.(rows := s.mem.rows[id := CompletedRow(s.mem.rows[id], cb)]);
    var steps := [Step(s.mem, TakeGuard(cb)), Step(m1, FindPayment(cb)), Step(m1, ApplyOutcome(cb, id)),
                  Step(m2, CallbackEnded(cb, Applied))];
    ArrivalAndCourse(cfg, s, Deliver(b, cb), b, TakeGuard(cb), [Redis(Up), Found(id), Db(DbOk)], steps);
  }
}
