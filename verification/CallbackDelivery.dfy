/**
 Duplicate callbacks. Daraja may deliver any number of callbacks for any checkout ids, in any order and
 concurrently; the guard in Redis admits one delivery per id, and the table ends up as if only those
 deliveries had been applied, one after the other, in any order.
 */
module CallbackDelivery {
  import opened Basics
  import opened Payments
  import opened StkProtocol
  import opened StkInvariant
  import opened Lifecycle
  import opened Columns

  // ----- The reference: applying callbacks one after the other ------------------------------------

  /** What a callback makes of the row it matches; a negative amount is refused by the CHECK constraint. */
  function Reported(row: Payment, cb: Callback): Payment {
    if cb.code == 0 && cb.amount.Some? && cb.amount.value < 0.0 then row
    else Updated(row, CallbackWrite(cb, 0))
  }

  function ApplyOne(rows: Table, cb: Callback): Table {
    map p | p in rows :: if rows[p].checkout == Some(cb.checkout) then Reported(rows[p], cb) else rows[p]
  }

  function ApplyAll(rows: Table, cbs: seq<Callback>): Table {
    if cbs == [] then rows else ApplyOne(ApplyAll(rows, cbs[..|cbs| - 1]), cbs[|cbs| - 1])
  }

  predicate OnePerId(cbs: seq<Callback>) {
    forall i, j :: 0 <= i < j < |cbs| ==> cbs[i].checkout != cbs[j].checkout
  }

  predicate Addresses(cbs: seq<Callback>, c: string) {
    exists cb <- cbs :: cb.checkout == c
  }

  lemma ReportedKeepsCheckout(row: Payment, cb: Callback)
    ensures Reported(row, cb).checkout == row.checkout && Reported(row, cb).merchant == row.merchant
  {
  }

  lemma {:induction false} ApplyAllKeeps(rows: Table, cbs: seq<Callback>, p: PaymentId)
    requires p in rows
    ensures p in ApplyAll(rows, cbs) && ApplyAll(rows, cbs)[p].checkout == rows[p].checkout
  {
    hide Reported;
    if cbs != [] {
      var n := |cbs| - 1;
      ApplyAllKeeps(rows, cbs[..n], p);
      ReportedKeepsCheckout(ApplyAll(rows, cbs[..n])[p], cbs[n]);
    }
  }

  /** A row that no callback addresses stays. */
  lemma {:induction false} ApplyAllSkips(rows: Table, cbs: seq<Callback>, p: PaymentId)
    requires p in rows && forall cb <- cbs :: rows[p].checkout != Some(cb.checkout)
    ensures p in ApplyAll(rows, cbs) && ApplyAll(rows, cbs)[p] == rows[p]
  {
    hide Reported;
    if cbs != [] {
      var n := |cbs| - 1;
      assert cbs[n] in cbs && forall cb <- cbs[..n] :: cb in cbs;
      ApplyAllSkips(rows, cbs[..n], p);
    }
  }

  /** With one callback per id, a row gets the outcome of its own callback. */
  lemma {:induction false} ApplyAllHits(rows: Table, cbs: seq<Callback>, p: PaymentId, i: nat)
    requires OnePerId(cbs) && p in rows && i < |cbs| && rows[p].checkout == Some(cbs[i].checkout)
    ensures p in ApplyAll(rows, cbs) && ApplyAll(rows, cbs)[p] == Reported(rows[p], cbs[i])
    decreases |cbs|
  {
    hide Reported;
    var n := |cbs| - 1;
    if i < n {
      ApplyAllHits(rows, cbs[..n], p, i);
      ApplyAllKeeps(rows, cbs[..n], p);
    } else {
      forall cb | cb in cbs[..n]
        ensures cb.checkout != cbs[n].checkout
      {
        var j :| 0 <= j < n && cbs[j] == cb;
      }
      ApplyAllSkips(rows, cbs[..n], p);
    }
  }

  /** So a row gets the outcome of its own callback, or stays. */
  lemma ApplyAllRow(rows: Table, cbs: seq<Callback>, p: PaymentId)
    requires OnePerId(cbs) && p in rows
    ensures p in ApplyAll(rows, cbs)
    ensures forall cb <- cbs ::
              rows[p].checkout == Some(cb.checkout) ==> ApplyAll(rows, cbs)[p] == Reported(rows[p], cb)
    ensures (rows[p].checkout.Some? ==> !Addresses(cbs, rows[p].checkout.value)) ==> ApplyAll(rows, cbs)[p] == rows[p]
  {
    hide Reported, ApplyAll, OnePerId;
    ApplyAllKeeps(rows, cbs, p);
    forall cb | cb in cbs && rows[p].checkout == Some(cb.checkout)
      ensures ApplyAll(rows, cbs)[p] == Reported(rows[p], cb)
    {
      var i :| 0 <= i < |cbs| && cbs[i] == cb;
      ApplyAllHits(rows, cbs, p, i);
    }
    if rows[p].checkout.Some? ==> !Addresses(cbs, rows[p].checkout.value) {
      ApplyAllSkips(rows, cbs, p);
    }
  }

  /** Two orders of the same callbacks, one per id, give the same table. */
  lemma ApplyInAnyOrder(rows: Table, cbs: seq<Callback>, dbs: seq<Callback>)
    requires OnePerId(cbs) && OnePerId(dbs)
    requires forall cb :: cb in cbs <==> cb in dbs
    ensures ApplyAll(rows, cbs) == ApplyAll(rows, dbs)
  {
    forall p | p in rows
      ensures p in ApplyAll(rows, cbs) && p in ApplyAll(rows, dbs) && ApplyAll(rows, cbs)[p] == ApplyAll(rows, dbs)[p]
    {
      ApplyAllRow(rows, cbs, p);
      ApplyAllRow(rows, dbs, p);
    }
    KeysStay(rows, cbs);
    KeysStay(rows, dbs);
  }

  lemma KeysStay(rows: Table, cbs: seq<Callback>)
    ensures ApplyAll(rows, cbs).Keys == rows.Keys
  {
  }

  // ----- Runs of deliveries -----------------------------------------------------------------------

  /** A label of a callback processor that is not part of `s0`; Redis and the database answer. */
  predicate DeliveryLabel(s0: State, l: Label) {
    match l
    case Deliver(a, _) => a !in s0.actors
    case Act(a, answer) => a !in s0.actors && (answer.Redis? ==> answer.redis.Up?) && (answer.Db? ==> answer.db.DbOk?)
    case _ => false
  }

  /** The deliveries the guard admitted since `s0`, in the order in which they won it. */
  function Winners(s0: State, s: State): seq<Callback> {
    if |s0.mem.admitted| <= |s.mem.admitted| then s.mem.admitted[|s0.mem.admitted|..] else []
  }

  predicate AnyActive(s0: State, s: State, c: string) {
    exists a <- s.actors.Keys :: a !in s0.actors && Active(s.actors[a], c)
  }

  predicate CallbackActor(x: Actor) {
    x.TakeGuard? || x.FindPayment? || x.ApplyOutcome? || x.CallbackEnded?
  }

  /** The winner for id `c` has come and gone. */
  predicate Done(s0: State, s: State, winners: seq<Callback>, c: string) {
    Addresses(winners, c) && !AnyActive(s0, s, c)
  }

  /** A row is as in `s0` until the winner for its id, if any, is done with it. */
  predicate RowTracks(s0: State, s: State, winners: seq<Callback>, p: PaymentId)
    requires p in s0.mem.rows && p in s.mem.rows
  {
    var row0, row := s0.mem.rows[p], s.mem.rows[p];
    && row.checkout == row0.checkout
    && if row0.checkout.Some? && Done(s0, s, winners, row0.checkout.value)
       then forall cb <- winners :: row0.checkout == Some(cb.checkout) ==> row == Reported(row0, cb)
       else row == row0
  }

  /** The guards are those of `s0` and the winners', one winner per id. */
  ghost predicate GuardsTrack(s0: State, s: State, ws: seq<Callback>) {
    && OnePerId(ws)
    && (forall c :: c in s.mem.guards <==> c in s0.mem.guards || Addresses(ws, c))
    && (forall cb <- ws :: cb.checkout !in s0.mem.guards)
  }

  ghost predicate ActorTracks(s: State, ws: seq<Callback>, x: Actor) {
    && CallbackActor(x)
    && (x.FindPayment? || x.ApplyOutcome? ==> x.cb in ws)
    && (x.ApplyOutcome? ==> x.id in s.mem.rows && s.mem.rows[x.id].checkout == Some(x.cb.checkout))
  }

  ghost predicate ActorsTrack(s0: State, s: State, ws: seq<Callback>) {
    && (forall a :: a in s.actors && a !in s0.actors ==> ActorTracks(s, ws, s.actors[a]))
    && (forall a, b :: a in s.actors && b in s.actors && a !in s0.actors && b !in s0.actors && a != b ==>
          !BothActive(s.actors[a], s.actors[b]))
  }

  /** Two processors at work on one id. */
  predicate BothActive(x: Actor, y: Actor) {
    (x.FindPayment? || x.ApplyOutcome?) && (y.FindPayment? || y.ApplyOutcome?) && x.cb.checkout == y.cb.checkout
  }

  ghost predicate RowsTrack(s0: State, s: State, ws: seq<Callback>) {
    && s.mem.rows.Keys == s0.mem.rows.Keys
    && forall p :: p in s0.mem.rows ==> RowTracks(s0, s, ws, p)
  }

  ghost predicate Tracks(s0: State, s: State) {
    && |s0.mem.admitted| <= |s.mem.admitted|
    && GuardsTrack(s0, s, Winners(s0, s))
    && ActorsTrack(s0, s, Winners(s0, s))
    && RowsTrack(s0, s, Winners(s0, s))
  }

  lemma StartTracks(s0: State)
    ensures Tracks(s0, s0)
  {
    assert Winners(s0, s0) == [];
  }

  /** The rows still track when nobody enters or leaves an id that has rows. */
  lemma SameActivitySameRows(s0: State, s: State, s': State, ws: seq<Callback>)
    requires RowsTrack(s0, s, ws) && s'.mem.rows == s.mem.rows
    requires forall p :: p in s0.mem.rows && s0.mem.rows[p].checkout.Some? ==>
               (AnyActive(s0, s', s0.mem.rows[p].checkout.value) <==> AnyActive(s0, s, s0.mem.rows[p].checkout.value))
    ensures RowsTrack(s0, s', ws)
  {
    hide AnyActive;
    forall p | p in s0.mem.rows
      ensures RowTracks(s0, s', ws, p)
    {
      assert RowTracks(s0, s, ws, p);
    }
  }

  /** From actor `x0`, if it exists, a step that neither wins the guard nor writes. */
  predicate QuietMove(rows: Table, x0: Option<Actor>, x: Actor) {
    if x0.Some? && x0.value.FindPayment? then
      (x.CallbackEnded? && forall p <- rows.Keys :: rows[p].checkout != Some(x0.value.cb.checkout))
      || (x.ApplyOutcome? && x.cb == x0.value.cb && x.id in rows && rows[x.id].checkout == Some(x.cb.checkout))
    else (x.TakeGuard? || x.CallbackEnded?) && (x0.Some? ==> !x0.value.ApplyOutcome?)
  }

  function ActorAt(s: State, a: ActorId): Option<Actor> {
    if a in s.actors then Some(s.actors[a]) else None
  }

  lemma QuietActors(s0: State, s: State, ws: seq<Callback>, a: ActorId, x: Actor)
    requires ActorsTrack(s0, s, ws) && a !in s0.actors && QuietMove(s.mem.rows, ActorAt(s, a), x)
    ensures ActorsTrack(s0, s.(actors := s.actors[a := x]), ws)
  {
  }

  lemma QuietRows(s0: State, s: State, ws: seq<Callback>, a: ActorId, x: Actor)
    requires RowsTrack(s0, s, ws) && a !in s0.actors && QuietMove(s.mem.rows, ActorAt(s, a), x)
    ensures RowsTrack(s0, s.(actors := s.actors[a := x]), ws)
  {
    hide AnyActive;
    var s' := s.(actors := s.actors[a := x]);
    forall p | p in s0.mem.rows && s0.mem.rows[p].checkout.Some?
      ensures AnyActive(s0, s', s0.mem.rows[p].checkout.value) <==> AnyActive(s0, s, s0.mem.rows[p].checkout.value)
    {
      assert RowTracks(s0, s, ws, p);
      QuietActivity(s0, s, a, x, s0.mem.rows[p].checkout.value);
    }
    SameActivitySameRows(s0, s, s', ws);
  }

  /** A processor that starts, or is turned away by the guard or the lookup, or finds its payment. */
  lemma QuietDelivery(s0: State, s: State, a: ActorId, x: Actor)
    requires Tracks(s0, s) && a !in s0.actors && QuietMove(s.mem.rows, ActorAt(s, a), x)
    ensures Tracks(s0, s.(actors := s.actors[a := x]))
  {
    hide ActorsTrack, RowsTrack, QuietMove;
    QuietActors(s0, s, Winners(s0, s), a, x);
    QuietRows(s0, s, Winners(s0, s), a, x);
  }

  lemma QuietActivity(s0: State, s: State, a: ActorId, x: Actor, c: string)
    requires a !in s0.actors && (Active(x, c) <==> a in s.actors && Active(s.actors[a], c))
    ensures AnyActive(s0, s.(actors := s.actors[a := x]), c) <==> AnyActive(s0, s, c)
  {
    var s' := s.(actors := s.actors[a := x]);
    if AnyActive(s0, s, c) {
      var b :| b in s.actors && b !in s0.actors && Active(s.actors[b], c);
      assert Active(s'.actors[b], c);
    }
    if AnyActive(s0, s', c) {
      var b :| b in s'.actors && b !in s0.actors && Active(s'.actors[b], c);
      assert Active(s.actors[b], c);
    }
  }

  lemma WinningActors(s0: State, s: State, s': State, ws: seq<Callback>, a: ActorId, cb: Callback)
    requires ActorsTrack(s0, s, ws) && GuardsTrack(s0, s, ws) && a !in s0.actors && cb.checkout !in s.mem.guards
    requires s'.actors == s.actors[a := FindPayment(cb)] && s'.mem.rows == s.mem.rows
    ensures ActorsTrack(s0, s', ws + [cb])
  {
    Widens(ws, cb);
    assert !Addresses(ws, cb.checkout);
    forall b | b in s.actors && b !in s0.actors && (s.actors[b].FindPayment? || s.actors[b].ApplyOutcome?)
      ensures s.actors[b].cb.checkout != cb.checkout
    {
      assert ActorTracks(s, ws, s.actors[b]);
    }
  }

  lemma WinningGuards(s0: State, s: State, s': State, ws: seq<Callback>, cb: Callback)
    requires GuardsTrack(s0, s, ws) && cb.checkout !in s.mem.guards
    requires s'.mem.guards == s.mem.guards + {cb.checkout}
    ensures GuardsTrack(s0, s', ws + [cb])
  {
    Widens(ws, cb);
    assert !Addresses(ws, cb.checkout);
  }

  lemma WinningRows(s0: State, s: State, s': State, ws: seq<Callback>, a: ActorId, cb: Callback)
    requires RowsTrack(s0, s, ws) && a !in s0.actors && a in s.actors && s.actors[a] == TakeGuard(cb)
    requires !Addresses(ws, cb.checkout)
    requires s'.actors == s.actors[a := FindPayment(cb)] && s'.mem.rows == s.mem.rows
    ensures RowsTrack(s0, s', ws + [cb])
  {
    Widens(ws, cb);
    hide AnyActive, Addresses;
    forall p | p in s0.mem.rows
      ensures RowTracks(s0, s', ws + [cb], p)
    {
      assert RowTracks(s0, s, ws, p);
      if s0.mem.rows[p].checkout.Some? {
        var c := s0.mem.rows[p].checkout.value;
        if c == cb.checkout {
          ActiveAt(s0, s', a, c);
        } else {
          SameActivity(s0, s, s', a, c);
        }
      }
    }
  }

  lemma ActiveAt(s0: State, s: State, a: ActorId, c: string)
    requires a in s.actors && a !in s0.actors && Active(s.actors[a], c)
    ensures AnyActive(s0, s, c)
  {
  }

  /** Moving one processor of another id does not change who is active for `c`. */
  lemma SameActivity(s0: State, s: State, s': State, a: ActorId, c: string)
    requires a !in s0.actors && a in s.actors && a in s'.actors && s'.actors == s.actors[a := s'.actors[a]]
    requires !Active(s.actors[a], c) && !Active(s'.actors[a], c)
    ensures AnyActive(s0, s', c) <==> AnyActive(s0, s, c)
  {
    QuietActivity(s0, s, a, s'.actors[a], c);
  }

  /** A delivery that wins the guard. */
  lemma WinningDelivery(s0: State, s: State, a: ActorId, cb: Callback)
    requires Tracks(s0, s) && a !in s0.actors && a in s.actors && s.actors[a] == TakeGuard(cb)
    requires cb.checkout !in s.mem.guards
    ensures
      var m' := s.mem.(guards := s.mem.guards + {cb.checkout}, admitted := s.mem.admitted + [cb]);
      Tracks(s0, State(m', s.actors[a := FindPayment(cb)]))
  {
    var m' := s.mem.(guards := s.mem.guards + {cb.checkout}, admitted := s.mem.admitted + [cb]);
    var s' := State(m', s.actors[a := FindPayment(cb)]);
    var ws := Winners(s0, s);
    assert Winners(s0, s') == ws + [cb];
    assert !Addresses(ws, cb.checkout);
    hide ActorsTrack, RowsTrack, GuardsTrack, Addresses;
    WinningActors(s0, s, s', ws, a, cb);
    WinningGuards(s0, s, s', ws, cb);
    WinningRows(s0, s, s', ws, a, cb);
  }

  lemma Widens(ws: seq<Callback>, cb: Callback)
    ensures forall c :: Addresses(ws + [cb], c) <==> Addresses(ws, c) || c == cb.checkout
    ensures forall w :: w in ws + [cb] <==> w in ws || w == cb
  {
    forall c
      ensures Addresses(ws + [cb], c) <==> Addresses(ws, c) || c == cb.checkout
    {
      assert cb in ws + [cb];
      assert forall w <- ws :: w in ws + [cb];
    }
  }

  lemma WritingActors(s0: State, s: State, s': State, ws: seq<Callback>, a: ActorId, x: Actor)
    requires ActorsTrack(s0, s, ws) && a !in s0.actors && x.CallbackEnded? && s'.actors == s.actors[a := x]
    requires s'.mem.rows.Keys == s.mem.rows.Keys && SameIds(s.mem.rows, s'.mem.rows)
    ensures ActorsTrack(s0, s', ws)
  {
    forall b | b in s'.actors && b !in s0.actors
      ensures ActorTracks(s', ws, s'.actors[b])
    {
      assert b != a ==> ActorTracks(s, ws, s.actors[b]);
    }
  }

  /** When the one processor of an id leaves, nobody is active for it. */
  lemma LastLeaves(s0: State, s: State, s': State, ws: seq<Callback>, a: ActorId, c: string)
    requires ActorsTrack(s0, s, ws) && a !in s0.actors && a in s.actors && Active(s.actors[a], c)
    requires a in s'.actors && s'.actors == s.actors[a := s'.actors[a]] && !Active(s'.actors[a], c)
    ensures !AnyActive(s0, s', c)
  {
  }

  lemma WritingRows(s0: State, s: State, s': State, ws: seq<Callback>, a: ActorId, cb: Callback, id: PaymentId)
    requires RowsTrack(s0, s, ws) && UniqueCheckouts(s0.mem.rows)
    requires a !in s0.actors && a in s.actors && s.actors[a] == ApplyOutcome(cb, id)
    requires a in s'.actors && s'.actors[a].CallbackEnded? && s'.actors == s.actors[a := s'.actors[a]]
    requires id in s.mem.rows && s.mem.rows[id].checkout == Some(cb.checkout)
    requires s'.mem.rows == s.mem.rows[id := Reported(s.mem.rows[id], cb)]
    requires !AnyActive(s0, s', cb.checkout) && cb in ws && forall w <- ws :: w.checkout == cb.checkout ==> w == cb
    ensures RowsTrack(s0, s', ws)
  {
    ActiveAt(s0, s, a, cb.checkout);
    hide AnyActive, Updated, CallbackWrite;
    forall p | p in s0.mem.rows
      ensures RowTracks(s0, s', ws, p)
    {
      assert RowTracks(s0, s, ws, p) && RowTracks(s0, s, ws, id);
      ReportedKeepsCheckout(s.mem.rows[p], cb);
      if p == id {
        assert Addresses(ws, cb.checkout);
      } else if s0.mem.rows[p].checkout.Some? {
        SameActivity(s0, s, s', a, s0.mem.rows[p].checkout.value);
      }
    }
  }

  /** The winner writes its outcome into the one row with its id, and is done. */
  lemma WritingDelivery(s0: State, s: State, a: ActorId, cb: Callback, id: PaymentId, ending: Ending)
    requires Tracks(s0, s) && UniqueCheckouts(s0.mem.rows)
    requires a !in s0.actors && a in s.actors && s.actors[a] == ApplyOutcome(cb, id)
    ensures
      var m' := s.mem.(rows := Settle(s.mem.rows, CallbackWrite(cb, id), DbOk));
      Tracks(s0, State(m', s.actors[a := CallbackEnded(cb, ending)]))
  {
    var rows' := Settle(s.mem.rows, CallbackWrite(cb, id), DbOk);
    var s' := State(s.mem.(rows := rows'), s.actors[a := CallbackEnded(cb, ending)]);
    var ws := Winners(s0, s);
    assert Winners(s0, s') == ws;
    hide *;
    WritingFacts(s0, s, s', a, cb, id);
    WinnerIsUnique(s0, s, ws, cb);
    SameGuards(s0, s, s', ws);
    WritingActors(s0, s, s', ws, a, s'.actors[a]);
    LastLeaves(s0, s, s', ws, a, cb.checkout);
    WritingRows(s0, s, s', ws, a, cb, id);
    TracksAgain(s0, s');
  }

  /** What is known when the winner writes. */
  lemma WritingFacts(s0: State, s: State, s': State, a: ActorId, cb: Callback, id: PaymentId)
    requires Tracks(s0, s) && a !in s0.actors && a in s.actors && s.actors[a] == ApplyOutcome(cb, id)
    requires s'.mem == s.mem.(rows := Settle(s.mem.rows, CallbackWrite(cb, id), DbOk))
    requires a in s'.actors && s'.actors[a].CallbackEnded?
    ensures |s0.mem.admitted| <= |s'.mem.admitted|
    ensures
      var ws := Winners(s0, s);
      GuardsTrack(s0, s, ws) && ActorsTrack(s0, s, ws) && RowsTrack(s0, s, ws) && cb in ws
    ensures id in s.mem.rows && s.mem.rows[id].checkout == Some(cb.checkout)
    ensures s'.mem.rows == s.mem.rows[id := Reported(s.mem.rows[id], cb)]
    ensures s'.mem.rows.Keys == s.mem.rows.Keys && SameIds(s.mem.rows, s'.mem.rows)
    ensures Active(s.actors[a], cb.checkout) && !Active(s'.actors[a], cb.checkout)
  {
    hide RowsTrack, GuardsTrack, Settle, SameIds, SameIdsExcept, Reported, CallbackWrite, Winners;
    assert ActorTracks(s, Winners(s0, s), s.actors[a]);
    SettledOutcome(s.mem.rows, cb, id);
    CallbackKeepsIds(s.mem.rows, cb, id);
  }

  lemma TracksAgain(s0: State, s: State)
    requires |s0.mem.admitted| <= |s.mem.admitted|
    requires
      var ws := Winners(s0, s);
      GuardsTrack(s0, s, ws) && ActorsTrack(s0, s, ws) && RowsTrack(s0, s, ws)
    ensures Tracks(s0, s)
  {
  }

  lemma SameGuards(s0: State, s: State, s': State, ws: seq<Callback>)
    requires GuardsTrack(s0, s, ws) && s'.mem.guards == s.mem.guards
    ensures GuardsTrack(s0, s', ws)
  {
  }

  lemma WinnerIsUnique(s0: State, s: State, ws: seq<Callback>, cb: Callback)
    requires GuardsTrack(s0, s, ws) && cb in ws
    ensures forall w <- ws :: w.checkout == cb.checkout ==> w == cb
  {
  }

  lemma CallbackKeepsIds(rows: Table, cb: Callback, id: PaymentId)
    ensures SameIds(rows, Settle(rows, CallbackWrite(cb, id), DbOk))
  {
    SettleKeepsIds(rows, CallbackWrite(cb, id), DbOk);
  }

  lemma SettledOutcome(rows: Table, cb: Callback, id: PaymentId)
    requires id in rows
    ensures Settle(rows, CallbackWrite(cb, id), DbOk) == rows[id := Reported(rows[id], cb)]
  {
  }

  lemma DeliveryStep(cfg: Config, s0: State, s: State, l: Label)
    requires Tracks(s0, s) && UniqueCheckouts(s0.mem.rows) && DeliveryLabel(s0, l)
    ensures Tracks(s0, Next(cfg, s, l))
  {
    hide Tracks, UniqueCheckouts, Settle, Raises, RunFrom;
    match l {
      case Deliver(a, cb) =>
        if a !in s.actors {
          QuietDelivery(s0, s, a, TakeGuard(cb));
        }
      case Act(a, answer) =>
        if a in s.actors {
          ActorIsCallback(s0, s, a);
          var x := s.actors[a];
          var step := Move(cfg, s.mem, x, answer);
          match x {
            case TakeGuard(cb) =>
              if answer.Redis? && cb.checkout !in s.mem.guards {
                WinningDelivery(s0, s, a, cb);
              } else {
                QuietDelivery(s0, s, a, step.actor);
              }
            case FindPayment(cb) =>
              if step.actor == x {
                assert s.actors[a := x] == s.actors;
              } else {
                QuietDelivery(s0, s, a, step.actor);
              }
            case ApplyOutcome(cb, id) =>
              if answer.Db? {
                WritingDelivery(s0, s, a, cb, id, step.actor.ending);
              } else {
                assert s.actors[a := x] == s.actors;
              }
            case CallbackEnded(_, _) =>
              assert s.actors[a := x] == s.actors;
          }
        }
    }
  }

  lemma ActorIsCallback(s0: State, s: State, a: ActorId)
    requires Tracks(s0, s) && a in s.actors && a !in s0.actors
    ensures CallbackActor(s.actors[a])
  {
  }

  lemma {:induction false} DeliveriesTrack(cfg: Config, s0: State, ls: seq<Label>)
    requires UniqueCheckouts(s0.mem.rows) && forall l <- ls :: DeliveryLabel(s0, l)
    ensures Tracks(s0, RunFrom(cfg, s0, ls))
  {
    hide Next, Tracks, UniqueCheckouts;
    if ls == [] {
      StartTracks(s0);
    } else {
      var n := |ls| - 1;
      assert ls == ls[..n] + [ls[n]];
      DeliveriesTrack(cfg, s0, ls[..n]);
      DeliveryStep(cfg, s0, RunFrom(cfg, s0, ls[..n]), ls[n]);
    }
  }

  /** Behind every processor that got past its first step, the guard of its id is set. */
  ghost predicate Guarded(s0: State, s: State) {
    forall a :: a in s.actors && a !in s0.actors ==>
      CallbackActor(s.actors[a]) && (Past(s.actors[a]) ==> s.actors[a].cb.checkout in s.mem.guards)
  }

  predicate Past(x: Actor) {
    x.FindPayment? || x.ApplyOutcome? || x.CallbackEnded?
  }

  /** A processor that moves has its guard set afterwards, or has not got past its first step. */
  lemma MoveGuarded(cfg: Config, m: Memory, x: Actor, answer: Answer)
    requires CallbackActor(x) && (Past(x) ==> x.cb.checkout in m.guards) && (answer.Redis? ==> answer.redis.Up?)
    ensures
      var step := Move(cfg, m, x, answer);
      CallbackActor(step.actor) && m.guards <= step.mem.guards &&
      (Past(step.actor) ==> step.actor.cb.checkout in step.mem.guards)
  {
    hide Settle, Payments.Raises;
  }

  lemma DeliveryKeepsGuarded(cfg: Config, s0: State, s: State, l: Label)
    requires Guarded(s0, s) && DeliveryLabel(s0, l)
    ensures Guarded(s0, Next(cfg, s, l))
  {
    hide Move;
    if l.Act? && l.actor in s.actors {
      MoveGuarded(cfg, s.mem, s.actors[l.actor], l.answer);
    }
  }

  lemma {:induction false} DeliveriesGuarded(cfg: Config, s0: State, ls: seq<Label>)
    requires forall l <- ls :: DeliveryLabel(s0, l)
    ensures Guarded(s0, RunFrom(cfg, s0, ls))
  {
    hide Next, Guarded;
    if ls == [] {
      StartGuarded(s0);
    } else {
      var n := |ls| - 1;
      assert ls == ls[..n] + [ls[n]];
      DeliveriesGuarded(cfg, s0, ls[..n]);
      DeliveryKeepsGuarded(cfg, s0, RunFrom(cfg, s0, ls[..n]), ls[n]);
    }
  }

  lemma StartGuarded(s0: State)
    ensures Guarded(s0, s0)
  {
  }

  /**
   For every interleaving of deliveries from a state whose checkout ids are unique: once all processors
   are done, the table is what applying the guard winners alone gives, in whatever order. There is at
   most one winner per id, none for an id whose guard was set before, and one for every other delivered id.
   */
  lemma WinnersDecideTheTable(cfg: Config, s0: State, ls: seq<Label>, order: seq<Callback>)
    requires UniqueCheckouts(s0.mem.rows) && forall l <- ls :: DeliveryLabel(s0, l)
    requires
      var s := RunFrom(cfg, s0, ls);
      forall a <- s.actors.Keys :: a !in s0.actors ==> s.actors[a].CallbackEnded?
    requires OnePerId(order) && forall cb :: cb in order <==> cb in Winners(s0, RunFrom(cfg, s0, ls))
    ensures
      var s := RunFrom(cfg, s0, ls);
      && OnePerId(Winners(s0, s))
      && (forall cb <- Winners(s0, s) :: cb.checkout !in s0.mem.guards)
      && (forall a <- s.actors.Keys :: a !in s0.actors ==>
            s.actors[a].cb.checkout in s0.mem.guards || Addresses(Winners(s0, s), s.actors[a].cb.checkout))
      && s.mem.rows == ApplyAll(s0.mem.rows, order)
    ensures
      var s := RunFrom(cfg, s0, ls);
      forall cb, p :: cb in Winners(s0, s) && p in s0.mem.rows && s0.mem.rows[p].checkout == Some(cb.checkout) ==>
        p in s.mem.rows &&
        if cb.code == 0 && cb.amount.Some? && cb.amount.value < 0.0 then s.mem.rows[p] == s0.mem.rows[p]
        else Shows(s.mem.rows[p], cb)
  {
    hide RunFrom, UniqueCheckouts, ActorsTrack, RowsTrack, ApplyAll, Winners, Shows;
    var s := RunFrom(cfg, s0, ls);
    DeliveriesTrack(cfg, s0, ls);
    DeliveriesGuarded(cfg, s0, ls);
    ApplyInAnyOrder(s0.mem.rows, Winners(s0, s), order);
    assert forall c :: !AnyActive(s0, s, c);
    QuietTable(s0, s, Winners(s0, s));
    forall cb, p | cb in Winners(s0, s) && p in s0.mem.rows && s0.mem.rows[p].checkout == Some(cb.checkout)
      ensures p in s.mem.rows &&
              if cb.code == 0 && cb.amount.Some? && cb.amount.value < 0.0 then s.mem.rows[p] == s0.mem.rows[p]
              else Shows(s.mem.rows[p], cb)
    {
      WinnerShows(s0.mem.rows, Winners(s0, s), cb, p);
    }
  }

  /** The row of a callback ends up with what that callback reports. */
  lemma WinnerShows(rows: Table, cbs: seq<Callback>, cb: Callback, p: PaymentId)
    requires OnePerId(cbs) && cb in cbs && p in rows && rows[p].checkout == Some(cb.checkout)
    ensures p in ApplyAll(rows, cbs)
    ensures if cb.code == 0 && cb.amount.Some? && cb.amount.value < 0.0 then ApplyAll(rows, cbs)[p] == rows[p]
            else Shows(ApplyAll(rows, cbs)[p], cb)
  {
    hide ApplyAll, Shows, OnePerId, Updated, CallbackWrite;
    ApplyAllRow(rows, cbs, p);
    if !(cb.code == 0 && cb.amount.Some? && cb.amount.value < 0.0) {
      ReportedShows(rows[p], cb);
    }
  }

  lemma QuietTable(s0: State, s: State, ws: seq<Callback>)
    requires RowsTrack(s0, s, ws) && OnePerId(ws) && forall c :: !AnyActive(s0, s, c)
    ensures s.mem.rows == ApplyAll(s0.mem.rows, ws)
  {
    hide AnyActive, ApplyAll, Reported;
    KeysStay(s0.mem.rows, ws);
    forall p | p in s0.mem.rows
      ensures s.mem.rows[p] == ApplyAll(s0.mem.rows, ws)[p]
    {
      assert RowTracks(s0, s, ws, p);
      ApplyAllRow(s0.mem.rows, ws, p);
    }
  }
}
