/** The invariant of the STK payment protocol and its preservation by every label. */
module StkInvariant {
  import opened Basics
  import opened Payments
  import opened StkProtocol

  /** At least one attempt, as app/config.py:66 demands. */
  predicate Sane(cfg: Config) {
    cfg.attempts >= 1
  }

  /** The payment an initiation is responsible for, from its insert until Daraja's ids are stored. */
  function HeldId(x: Actor): Option<PaymentId> {
    match x
    case Call(_, id) => Some(id)
    case Attempt(_, id, _) => Some(id)
    case StoreIds(_, id, _, _) => Some(id)
    case RecordFailure(_, id) => Some(id)
    case _ => None
  }

  /** How often a request for payment `id` was sent to Daraja. */
  function Posts(log: seq<Event>, id: PaymentId): nat {
    if log == [] then 0
    else
      var n := |log| - 1;
      Posts(log[..n], id) + if log[n].Posted? && log[n].id == id then 1 else 0
  }

  predicate Mentions(log: seq<Event>, id: PaymentId) {
    exists e <- log :: e.id == id
  }

  /** The committed row that stands for a request. */
  predicate Anchored(rows: Table, id: PaymentId, key: string, phone: string, amount: int) {
    id in rows && rows[id].key == key && rows[id].phone == phone && rows[id].amount == amount
  }

  /** The row of a payment whose Daraja ids are not stored yet. */
  predicate Held(rows: Table, req: Request, id: PaymentId) {
    Anchored(rows, id, req.key, req.phone, req.amount) && rows[id].checkout.None?
  }

  predicate ResponseOk(rows: Table, key: string, r: Response) {
    && r.paymentId in rows && rows[r.paymentId].key == key
    && (r.checkout != "" ==> rows[r.paymentId].checkout == Some(r.checkout))
    && (r.merchant != "" ==> rows[r.paymentId].merchant == Some(r.merchant))
  }

  predicate ActorOk(cfg: Config, m: Memory, x: Actor) {
    match x
    case Call(req, id) => Held(m.rows, req, id) && !Mentions(m.log, id)
    case Attempt(req, id, used) => Held(m.rows, req, id) && used < cfg.attempts && Posts(m.log, id) <= used
    case StoreIds(req, id, _, _) => Held(m.rows, req, id)
    case RecordFailure(req, id) => Held(m.rows, req, id)
    case FillCache(req, response) => ResponseOk(m.rows, req.key, response)
    case Release(req, outcome) => outcome.Returned? ==> ResponseOk(m.rows, req.key, outcome.response)
    case Finished(req, outcome) => outcome.Returned? ==> ResponseOk(m.rows, req.key, outcome.response)
    case ApplyOutcome(cb, id) => id in m.rows && m.rows[id].checkout == Some(cb.checkout)
    case Sweeping(batch) => forall c <- batch :: c.id in m.rows && c.receipt.None?
    case _ => true
  }

  /** Every event names a committed row with its data, and no payment is initiated twice. */
  ghost predicate LogOk(cfg: Config, rows: Table, log: seq<Event>) {
    && (forall e :: e in log ==> Anchored(rows, e.id, e.key, e.phone, e.amount))
    && (forall i, j :: 0 <= i < j < |log| && log[i].Initiated? && log[j].Initiated? ==> log[i].id != log[j].id)
    && (forall id :: Posts(log, id) <= cfg.attempts)
  }

  ghost predicate CacheOk(rows: Table, cache: map<string, Response>) {
    forall k :: k in cache ==> ResponseOk(rows, k, cache[k])
  }

  ghost predicate MemoryOk(cfg: Config, m: Memory) {
    TableOk(m.rows) && LogOk(cfg, m.rows, m.log) && CacheOk(m.rows, m.cache)
  }

  ghost predicate HoldersDiffer(actors: map<ActorId, Actor>) {
    forall a, b :: a in actors && b in actors && a != b && HeldId(actors[a]).Some? ==>
      HeldId(actors[a]) != HeldId(actors[b])
  }

  ghost predicate Inv(cfg: Config, s: State) {
    && MemoryOk(cfg, s.mem)
    && (forall a :: a in s.actors ==> ActorOk(cfg, s.mem, s.actors[a]))
    && HoldersDiffer(s.actors)
  }

  // ----- What one step may disturb ----------------------------------------------------------------

  /** A stored checkout or merchant id is never overwritten. */
  ghost predicate IdsKept(rows: Table, rows': Table) {
    && (forall p :: p in rows && p in rows' && rows[p].checkout.Some? ==> rows'[p].checkout == rows[p].checkout)
    && (forall p :: p in rows && p in rows' && rows[p].merchant.Some? ==> rows'[p].merchant == rows[p].merchant)
  }

  /** Nothing is lost, and events and ids change for the payment the actor holds and for no other. */
  ghost predicate Frame(m: Memory, m': Memory, held: Option<PaymentId>) {
    && Extends(m.rows, m'.rows)
    && IdsKept(m.rows, m'.rows)
    && (held.None? ==> SameIds(m.rows, m'.rows) && m'.log == m.log)
    && (held.Some? ==> SameIdsExcept(m.rows, m'.rows, held.value))
    && (m'.log == m.log || (held.Some? && |m'.log| == |m.log| + 1 && m'.log[..|m.log|] == m.log &&
                            m'.log[|m.log|].id == held.value))
  }

  lemma FrameKeepsActor(cfg: Config, m: Memory, m': Memory, held: Option<PaymentId>, y: Actor)
    requires ActorOk(cfg, m, y) && Frame(m, m', held)
    requires HeldId(y).Some? ==> HeldId(y) != held
    ensures ActorOk(cfg, m', y)
  {
    if HeldId(y).Some? {
      var id := HeldId(y).value;
      assert Posts(m'.log, id) == Posts(m.log, id);
      assert m'.rows[id].checkout == m.rows[id].checkout;
      if Mentions(m'.log, id) && m'.log != m.log {
        var e :| e in m'.log && e.id == id;
        assert m'.log == m.log + [m'.log[|m.log|]];
        assert e in m.log;
      }
    }
  }

  lemma FrameIsReflexive(m: Memory, held: Option<PaymentId>)
    ensures Frame(m, m, held)
  {
  }

  lemma FrameKeepsCache(m: Memory, m': Memory, held: Option<PaymentId>)
    requires CacheOk(m.rows, m.cache) && m'.cache == m.cache && Frame(m, m', held)
    ensures CacheOk(m'.rows, m'.cache)
  {
  }

  lemma FrameKeepsLog(cfg: Config, m: Memory, m': Memory, held: Option<PaymentId>)
    requires LogOk(cfg, m.rows, m.log) && m'.log == m.log && Frame(m, m', held)
    ensures LogOk(cfg, m'.rows, m'.log)
  {
  }

  /** A step that takes memory and actor from good to good, within its frame. */
  ghost predicate GoodStep(cfg: Config, m: Memory, x: Actor, step: Step) {
    && MemoryOk(cfg, step.mem)
    && ActorOk(cfg, step.mem, step.actor)
    && Frame(m, step.mem, HeldId(x))
    && (HeldId(step.actor).Some? ==> HeldId(step.actor) == HeldId(x) || HeldId(step.actor).value !in m.rows)
  }

  // ----- Every step of an actor -------------------------------------------------------------------

  /** Steps of an initiation that neither write a row nor log an event. */
  lemma QuietInitiation(cfg: Config, m: Memory, x: Actor, answer: Answer)
    requires MemoryOk(cfg, m) && ActorOk(cfg, m, x)
    requires x.ReadCache? || x.TakeLock? || x.LookUp? || x.Release?
    ensures GoodStep(cfg, m, x, Move(cfg, m, x, answer))
  {
    hide TableOk, LogOk, Settle, Raises, Violates, Selects, Candidates;
  }

  lemma CacheStep(cfg: Config, m: Memory, x: Actor, answer: Answer)
    requires MemoryOk(cfg, m) && ActorOk(cfg, m, x) && x.FillCache?
    ensures GoodStep(cfg, m, x, Move(cfg, m, x, answer))
  {
    hide TableOk, LogOk, Settle, Raises, Violates, Selects, Candidates;
  }

  /** Steps of a callback up to its write, and of actors that are done. */
  lemma QuietCallback(cfg: Config, m: Memory, x: Actor, answer: Answer)
    requires MemoryOk(cfg, m) && ActorOk(cfg, m, x)
    requires x.TakeGuard? || x.FindPayment? || x.Finished? || x.CallbackEnded? || x.Crashed?
    ensures GoodStep(cfg, m, x, Move(cfg, m, x, answer))
  {
    hide TableOk, LogOk, CacheOk, Settle, Raises, Violates, Selects, Candidates;
  }

  lemma SelectStep(cfg: Config, m: Memory, x: Actor, answer: Answer)
    requires MemoryOk(cfg, m) && x.Select?
    ensures GoodStep(cfg, m, x, Move(cfg, m, x, answer))
  {
    hide LogOk, CacheOk;
    if answer.Batch? && Selects(m.rows, x.cutoff, answer.ids) {
      forall c | c in Candidates(m.rows, answer.ids)
        ensures c.id in m.rows && c.receipt.None?
      {
        assert RowOk(m.rows[c.id]);
      }
    }
  }

  /** A statement that leaves Daraja's ids alone. */
  lemma WriteKeepsMemory(cfg: Config, m: Memory, x: Actor, w: Write, reply: DbReply)
    requires MemoryOk(cfg, m) && Proper(m.rows, w) && !w.UpdateDarajaIds?
    ensures
      var m' := m.(rows := Settle(m.rows, w, reply));
      MemoryOk(cfg, m') && Frame(m, m', HeldId(x)) && Extends(m.rows, m'.rows) && SameIds(m.rows, m'.rows)
  {
    hide Settle, TableOk, LogOk, CacheOk, Proper;
    var m' := m.(rows := Settle(m.rows, w, reply));
    SettleKeepsTable(m.rows, w, reply);
    SettleKeepsIds(m.rows, w, reply);
    if w.Create? {
      SettleShape(m.rows, w, reply);
    }
    FrameKeepsCache(m, m', HeldId(x));
    FrameKeepsLog(cfg, m, m', HeldId(x));
  }

  lemma InsertStep(cfg: Config, m: Memory, x: Actor, answer: Answer)
    requires MemoryOk(cfg, m) && ActorOk(cfg, m, x) && x.Insert?
    ensures GoodStep(cfg, m, x, Move(cfg, m, x, answer))
  {
    if answer.Db? {
      var w := Anchor(x.req, x.id, m.now);
      WriteKeepsMemory(cfg, m, x, w, answer.db);
      assert !Raises(m.rows, w, answer.db) ==> x.id !in m.rows && !Mentions(m.log, x.id);
    }
  }

  /** One more event for a payment whose committed row it matches. */
  lemma EventKeepsMemory(cfg: Config, m: Memory, e: Event)
    requires MemoryOk(cfg, m) && Anchored(m.rows, e.id, e.key, e.phone, e.amount)
    requires e.Initiated? ==> !Mentions(m.log, e.id)
    requires e.Posted? ==> Posts(m.log, e.id) < cfg.attempts
    ensures MemoryOk(cfg, m.(log := m.log + [e]))
    ensures Frame(m, m.(log := m.log + [e]), Some(e.id))
    ensures Posts(m.log + [e], e.id) == Posts(m.log, e.id) + if e.Posted? then 1 else 0
  {
    hide TableOk, CacheOk;
    assert (m.log + [e])[..|m.log|] == m.log;
    forall id
      ensures Posts(m.log + [e], id) == Posts(m.log, id) + if e.Posted? && e.id == id then 1 else 0
    {
    }
  }

  lemma NoMentionNoPosts(log: seq<Event>, id: PaymentId)
    requires !Mentions(log, id)
    ensures Posts(log, id) == 0
  {
    if log != [] {
      var n := |log| - 1;
      assert log[n] in log;
      assert forall e :: e in log[..n] ==> e in log;
      NoMentionNoPosts(log[..n], id);
    }
  }

  lemma CallStep(cfg: Config, m: Memory, x: Actor, answer: Answer)
    requires Sane(cfg) && MemoryOk(cfg, m) && ActorOk(cfg, m, x) && x.Call?
    ensures GoodStep(cfg, m, x, Move(cfg, m, x, answer))
  {
    hide MemoryOk;
    EventKeepsMemory(cfg, m, Initiated(x.id, x.req.key, x.req.phone, x.req.amount));
    NoMentionNoPosts(m.log, x.id);
  }

  lemma AttemptStep(cfg: Config, m: Memory, x: Actor, answer: Answer)
    requires MemoryOk(cfg, m) && ActorOk(cfg, m, x) && x.Attempt?
    ensures GoodStep(cfg, m, x, Move(cfg, m, x, answer))
  {
    hide MemoryOk;
    EventKeepsMemory(cfg, m, Posted(x.id, x.req.key, x.req.phone, x.req.amount));
  }

  lemma StoreIdsStep(cfg: Config, m: Memory, x: Actor, answer: Answer)
    requires MemoryOk(cfg, m) && ActorOk(cfg, m, x) && x.StoreIds?
    ensures GoodStep(cfg, m, x, Move(cfg, m, x, answer))
  {
    if answer.Db? {
      var w := UpdateDarajaIds(x.id, x.checkout, x.merchant);
      var m' := m.(rows := Settle(m.rows, w, answer.db));
      hide TableOk, LogOk, CacheOk, Settle;
      assert m.rows[x.id].merchant.None? by {
        assert TableOk(m.rows);
        HeldHasNoMerchant(m.rows, x.id);
      }
      SettleKeepsTable(m.rows, w, answer.db);
      SettleShape(m.rows, w, answer.db);
      assert Frame(m, m', Some(x.id));
      FrameKeepsCache(m, m', Some(x.id));
      FrameKeepsLog(cfg, m, m', Some(x.id));
    }
  }

  lemma HeldHasNoMerchant(rows: Table, id: PaymentId)
    requires TableOk(rows) && id in rows && rows[id].checkout.None?
    ensures rows[id].merchant.None?
  {
    assert RowOk(rows[id]);
  }

  lemma WriteStep(cfg: Config, m: Memory, x: Actor, answer: Answer)
    requires MemoryOk(cfg, m) && ActorOk(cfg, m, x)
    requires x.RecordFailure? || x.ApplyOutcome? || x.Sweeping?
    ensures GoodStep(cfg, m, x, Move(cfg, m, x, answer))
  {
    hide MemoryOk, Settle, Frame, SameIds;
    FrameIsReflexive(m, HeldId(x));
    if answer.Db? {
      if x.RecordFailure? {
        WriteKeepsMemory(cfg, m, x, MarkFailed(x.id, "Daraja API call failed before initiation", 1), answer.db);
      } else if x.ApplyOutcome? {
        WriteKeepsMemory(cfg, m, x, CallbackWrite(x.cb, x.id), answer.db);
      } else if x.batch != [] {
        assert x.batch[0] in x.batch;
        WriteKeepsMemory(cfg, m, x, Expire(x.batch[0].id, cfg.sweepTestsStatus), answer.db);
      }
    }
  }

  lemma MoveIsGood(cfg: Config, m: Memory, x: Actor, answer: Answer)
    requires Sane(cfg) && MemoryOk(cfg, m) && ActorOk(cfg, m, x)
    ensures GoodStep(cfg, m, x, Move(cfg, m, x, answer))
  {
    hide MemoryOk, ActorOk, Move, GoodStep;
    match x {
      case Insert(_, _) => InsertStep(cfg, m, x, answer);
      case Call(_, _) => CallStep(cfg, m, x, answer);
      case Attempt(_, _, _) => AttemptStep(cfg, m, x, answer);
      case StoreIds(_, _, _, _) => StoreIdsStep(cfg, m, x, answer);
      case Select(_) => SelectStep(cfg, m, x, answer);
      case RecordFailure(_, _) => WriteStep(cfg, m, x, answer);
      case ApplyOutcome(_, _) => WriteStep(cfg, m, x, answer);
      case Sweeping(_) => WriteStep(cfg, m, x, answer);
      case ReadCache(_) => QuietInitiation(cfg, m, x, answer);
      case TakeLock(_) => QuietInitiation(cfg, m, x, answer);
      case LookUp(_) => QuietInitiation(cfg, m, x, answer);
      case Release(_, _) => QuietInitiation(cfg, m, x, answer);
      case FillCache(_, _) => CacheStep(cfg, m, x, answer);
      case _ => QuietCallback(cfg, m, x, answer);
    }
  }

  // ----- Which statement a step runs --------------------------------------------------------------

  /** The statement an actor runs next when the database answers, if its step is a write. */
  function Statement(cfg: Config, m: Memory, x: Actor): Option<Write> {
    match x
    case Insert(req, id) => Some(Anchor(req, id, m.now))
    case StoreIds(_, id, checkout, merchant) => Some(UpdateDarajaIds(id, checkout, merchant))
    case RecordFailure(_, id) => Some(MarkFailed(id, "Daraja API call failed before initiation", 1))
    case ApplyOutcome(cb, id) => Some(CallbackWrite(cb, id))
    case Sweeping(batch) =>
      if batch != [] && !Queried(batch[0]) then Some(Expire(batch[0].id, cfg.sweepTestsStatus)) else None
    case _ => None
  }

  /** Rows change by those statements and by nothing else. */
  lemma MoveRows(cfg: Config, m: Memory, x: Actor, answer: Answer)
    ensures Move(cfg, m, x, answer).mem.rows
         == if answer.Db? && Statement(cfg, m, x).Some? then Settle(m.rows, Statement(cfg, m, x).value, answer.db)
            else m.rows
  {
    hide Settle, Raises;
  }

  /** A row that a step changes is the one its statement names. */
  lemma MoveRow(cfg: Config, m: Memory, x: Actor, answer: Answer, id: PaymentId)
    requires id in m.rows
    ensures id in Move(cfg, m, x, answer).mem.rows
    ensures
      var row' := Move(cfg, m, x, answer).mem.rows[id];
      row' == m.rows[id] ||
      (answer.Db? && !answer.db.DbDown? && Statement(cfg, m, x).Some? && Statement(cfg, m, x).value.id == id &&
       !Statement(cfg, m, x).value.Create? && row' == Updated(m.rows[id], Statement(cfg, m, x).value))
  {
    hide Move, Statement;
    MoveRows(cfg, m, x, answer);
  }

  // ----- Every label, every run -------------------------------------------------------------------

  lemma InitialInv(cfg: Config)
    ensures Inv(cfg, Initial())
  {
  }

  lemma ActKeepsInv(cfg: Config, s: State, a: ActorId, answer: Answer)
    requires Sane(cfg) && Inv(cfg, s) && a in s.actors
    ensures Inv(cfg, Next(cfg, s, Act(a, answer)))
  {
    hide MemoryOk, ActorOk, Move;
    var x := s.actors[a];
    var step := Move(cfg, s.mem, x, answer);
    MoveIsGood(cfg, s.mem, x, answer);
    var s' := Next(cfg, s, Act(a, answer));
    assert s' == State(step.mem, s.actors[a := step.actor]);
    forall b | b in s'.actors
      ensures ActorOk(cfg, s'.mem, s'.actors[b])
      ensures b != a && HeldId(s'.actors[b]).Some? ==> HeldId(s'.actors[b]) != HeldId(step.actor)
    {
      if b != a {
        FrameKeepsActor(cfg, s.mem, s'.mem, HeldId(x), s.actors[b]);
        HeldIsStored(cfg, s.mem, s.actors[b]);
      }
    }
  }

  lemma HeldIsStored(cfg: Config, m: Memory, x: Actor)
    requires ActorOk(cfg, m, x)
    ensures HeldId(x).Some? ==> HeldId(x).value in m.rows
  {
  }

  lemma UnwoundIsOk(cfg: Config, m: Memory, x: Actor)
    requires ActorOk(cfg, m, x)
    ensures ActorOk(cfg, m, Unwound(x))
    ensures HeldId(Unwound(x)).None?
  {
  }

  /** An actor that is new, or gives up what it held, in unchanged memory. */
  lemma RestKeepsInv(cfg: Config, s: State, a: ActorId, x: Actor)
    requires Inv(cfg, s) && ActorOk(cfg, s.mem, x) && HeldId(x).None?
    ensures Inv(cfg, s.(actors := s.actors[a := x]))
  {
    hide MemoryOk, ActorOk;
  }

  lemma DriftKeepsInv(cfg: Config, s: State, l: Label)
    requires Inv(cfg, s) && !l.Act?
    ensures Inv(cfg, s.(mem := Drift(s.mem, l)))
  {
    hide TableOk, LogOk;
  }

  lemma NextKeepsInv(cfg: Config, s: State, l: Label)
    requires Sane(cfg) && Inv(cfg, s)
    ensures Inv(cfg, Next(cfg, s, l))
  {
    hide MemoryOk, Move, Drift, Unwound;
    match l {
      case Act(a, answer) =>
        if a in s.actors {
          ActKeepsInv(cfg, s, a, answer);
        }
      case Cancel(a) =>
        if a in s.actors {
          UnwoundIsOk(cfg, s.mem, s.actors[a]);
          RestKeepsInv(cfg, s, a, Unwound(s.actors[a]));
        }
      case Crash(a) => RestKeepsInv(cfg, s, a, Crashed);
      case Arrive(a, req) => RestKeepsInv(cfg, s, a, ReadCache(req));
      case Deliver(a, cb) => RestKeepsInv(cfg, s, a, TakeGuard(cb));
      case Beat(a) => RestKeepsInv(cfg, s, a, Select(s.mem.now - STALE_AFTER));
      case _ => DriftKeepsInv(cfg, s, l);
    }
  }

  /** The invariant holds in every state of every run. */
  lemma {:induction false} InvAlways(cfg: Config, ls: seq<Label>)
    requires Sane(cfg)
    ensures Inv(cfg, Run(cfg, ls))
  {
    hide Next, Inv;
    if ls == [] {
      InitialInv(cfg);
    } else {
      InvAlways(cfg, ls[..|ls| - 1]);
      NextKeepsInv(cfg, Run(cfg, ls[..|ls| - 1]), ls[|ls| - 1]);
    }
  }

  /** Rows are never lost, keep what identifies them, and a stored Daraja id is never overwritten. */
  lemma NextGrows(cfg: Config, s: State, l: Label)
    requires Sane(cfg) && Inv(cfg, s)
    ensures Extends(s.mem.rows, Next(cfg, s, l).mem.rows)
    ensures IdsKept(s.mem.rows, Next(cfg, s, l).mem.rows)
  {
    hide MemoryOk, ActorOk, Move;
    if l.Act? && l.actor in s.actors {
      MoveIsGood(cfg, s.mem, s.actors[l.actor], l.answer);
    }
  }

  lemma {:induction false} RunGrows(cfg: Config, ls: seq<Label>, more: seq<Label>)
    requires Sane(cfg)
    ensures Extends(Run(cfg, ls).mem.rows, Run(cfg, ls + more).mem.rows)
    ensures IdsKept(Run(cfg, ls).mem.rows, Run(cfg, ls + more).mem.rows)
    decreases |more|
  {
    hide Next, Inv;
    if more == [] {
      assert ls + more == ls;
    } else {
      var n := |more| - 1;
      RunGrows(cfg, ls, more[..n]);
      InvAlways(cfg, ls + more[..n]);
      RunExtends(cfg, Initial(), ls + more[..n], ls + more, more[n]);
      NextGrows(cfg, Run(cfg, ls + more[..n]), more[n]);
    }
  }
}
