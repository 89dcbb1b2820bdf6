/**
 M-Pesa receipts. app/models/payment.py:58 lists "one receipt per confirmed transaction" among the invariants
 that the database enforces; the column has no UNIQUE constraint, so receipts are as unique as callbacks are.
 */
module Receipts {
  import opened Basics
  import opened Payments
  import opened StkProtocol
  import opened StkInvariant
  import opened Scenarios
  import opened Lifecycle

  ghost predicate UniqueReceipts(rows: Table) {
    forall p, q :: p in rows && q in rows && rows[p].receipt.Some? && rows[p].receipt == rows[q].receipt ==> p == q
  }

  predicate HeldElsewhere(rows: Table, id: PaymentId, receipt: Option<string>) {
    receipt.Some? && exists p <- rows.Keys :: p != id && rows[p].receipt == receipt
  }

  /** The label is a callback taking effect with a receipt that another payment already has. */
  predicate Repeats(s: State, l: Label) {
    && l.Act? && l.actor in s.actors && s.actors[l.actor].ApplyOutcome? && l.answer.Db? && !l.answer.db.DbDown?
    && Succeeds(s.actors[l.actor].cb)
    && HeldElsewhere(s.mem.rows, s.actors[l.actor].id, s.actors[l.actor].cb.receipt)
  }

  lemma UniqueAfterUpdate(rows: Table, id: PaymentId, row: Payment)
    requires UniqueReceipts(rows)
    ensures UniqueReceipts(rows[id := row]) <==> !HeldElsewhere(rows, id, row.receipt)
  {
    var rows' := rows[id := row];
    if HeldElsewhere(rows, id, row.receipt) {
      var p :| p in rows.Keys && p != id && rows[p].receipt == row.receipt;
      assert rows'[p].receipt == rows'[id].receipt;
    }
  }

  lemma NotHeldElsewhere(rows: Table, id: PaymentId)
    requires UniqueReceipts(rows) && id in rows
    ensures !HeldElsewhere(rows, id, rows[id].receipt)
  {
  }

  /** One label keeps receipts unique exactly when it does not repeat one. */
  lemma RepeatsIff(cfg: Config, s: State, l: Label)
    requires Sane(cfg) && Inv(cfg, s) && UniqueReceipts(s.mem.rows)
    ensures UniqueReceipts(Next(cfg, s, l).mem.rows) <==> !Repeats(s, l)
  {
    hide MemoryOk, Move, UniqueReceipts, HeldElsewhere;
    if l.Act? && l.actor in s.actors {
      var x := s.actors[l.actor];
      assert ActorOk(cfg, s.mem, x);
      MoveRows(cfg, s.mem, x, l.answer);
      if l.answer.Db? && Statement(cfg, s.mem, x).Some? {
        var w := Statement(cfg, s.mem, x).value;
        SettleReceipts(s.mem.rows, w, l.answer.db);
      }
    }
  }

  /** The only statement that writes a receipt is a completion. */
  lemma SettleReceipts(rows: Table, w: Write, reply: DbReply)
    requires UniqueReceipts(rows) && (w.Create? ==> w.row.receipt.None?)
    ensures UniqueReceipts(Settle(rows, w, reply)) <==>
              !(w.MarkCompleted? && !reply.DbDown? && !Violates(rows, w) && w.id in rows &&
                HeldElsewhere(rows, w.id, w.receipt))
  {
    hide Settle, UniqueReceipts;
    SettleShape(rows, w, reply);
    if w.Create? || w.id in rows {
      UniqueAfterUpdate(rows, w.id, RowAfter(rows, w));
      if w.id in rows {
        NotHeldElsewhere(rows, w.id);
      }
    }
    SettleWrites(rows, w, reply);
  }

  lemma SettleWrites(rows: Table, w: Write, reply: DbReply)
    ensures !Violates(rows, w) && !reply.DbDown? && w.id in rows && !w.Create? ==>
              Settle(rows, w, reply) == rows[w.id := Updated(rows[w.id], w)]
    ensures Violates(rows, w) || reply.DbDown? ==> Settle(rows, w, reply) == rows
  {
  }

  /** In every run, receipts have been unique all along exactly when no callback repeated one. */
  lemma {:induction false} ReceiptsStayUniqueIff(cfg: Config, ls: seq<Label>)
    requires Sane(cfg)
    ensures (forall n :: 0 <= n <= |ls| ==> UniqueReceipts(Run(cfg, ls[..n]).mem.rows))
       <==> (forall n :: 0 <= n < |ls| ==> !Repeats(Run(cfg, ls[..n]), ls[n]))
    decreases |ls|
  {
    hide Next, Repeats, UniqueReceipts, Inv, RunFrom;
    if ls == [] {
      assert Run(cfg, ls[..0]).mem.rows == map[] by {
        NothingStored(cfg, ls[..0]);
      }
      NoReceipts();
    } else {
      var n := |ls| - 1;
      ReceiptsStayUniqueIff(cfg, ls[..n]);
      assert forall k :: 0 <= k <= n ==> ls[..n][..k] == ls[..k];
      assert ls[..|ls|] == ls && ls == ls[..n] + [ls[n]];
      RunExtends(cfg, Initial(), ls[..n], ls, ls[n]);
      if UniqueReceipts(Run(cfg, ls[..n]).mem.rows) {
        InvAlways(cfg, ls[..n]);
        RepeatsIff(cfg, Run(cfg, ls[..n]), ls[n]);
      }
    }
  }

  lemma NothingStored(cfg: Config, ls: seq<Label>)
    requires ls == []
    ensures Run(cfg, ls).mem.rows == map[]
  {
  }

  lemma NoReceipts()
    ensures UniqueReceipts(map[])
  {
  }

  // ----- It happens -------------------------------------------------------------------------------

  function TwoInitiations(r: Request, q: Request, c: string, d: string, merchant: string): seq<Label> {
    Approach(0, r, 7) + Push(0, c, merchant) + Approach(1, q, 8) + Push(1, d, merchant)
  }

  /** Two payments are initiated, and each is completed by its own callback. */
  function TwoPayments(r: Request, q: Request, x: Callback, y: Callback, merchant: string): seq<Label> {
    TwoInitiations(r, q, x.checkout, y.checkout, merchant) + Completion(2, x, 7) + Completion(3, y, 8)
  }

  lemma FirstInitiation(cfg: Config, r: Request, c: string, merchant: string)
    requires r.amount > 0
    ensures
      var s := Run(cfg, Approach(0, r, 7) + Push(0, c, merchant));
      && s.mem.rows == map[7 := StoredRow(r, 0, c, merchant)] && s.mem.now == 0
      && s.mem.guards == {} && s.mem.cache == map[] && s.mem.locks == {r.key} && s.actors.Keys == {0}
  {
    hide RunFrom, Next;
    Approaches(cfg, Initial(), 0, r, 7);
    Pushes(cfg, Run(cfg, Approach(0, r, 7)), 0, r, 7, c, merchant);
    RunAppends(cfg, Initial(), Approach(0, r, 7), Push(0, c, merchant));
  }

  lemma SecondInitiation(cfg: Config, r: Request, q: Request, c: string, d: string, merchant: string)
    requires r.key != q.key && r.amount > 0 && q.amount > 0 && c != d
    ensures
      var s := Run(cfg, TwoInitiations(r, q, c, d, merchant));
      && s.mem.rows == map[7 := StoredRow(r, 0, c, merchant), 8 := StoredRow(q, 0, d, merchant)]
      && s.mem.guards == {} && s.actors.Keys == {0, 1}
  {
    hide RunFrom, Next;
    var first := Approach(0, r, 7) + Push(0, c, merchant);
    var second := first + Approach(1, q, 8);
    FirstInitiation(cfg, r, c, merchant);
    Approaches(cfg, Run(cfg, first), 1, q, 8);
    RunAppends(cfg, Initial(), first, Approach(1, q, 8));
    Pushes(cfg, Run(cfg, second), 1, q, 8, d, merchant);
    RunAppends(cfg, Initial(), second, Push(1, d, merchant));
  }

  /**
   For every two requests with different keys and two successful callbacks with different checkout ids that
   carry one receipt there is a run, with all guards kept, that leaves two COMPLETED payments with that receipt.
   */
  lemma ReceiptIsRepeated(cfg: Config, r: Request, q: Request, x: Callback, y: Callback, merchant: string)
    requires r.key != q.key && r.amount > 0 && q.amount > 0
    requires x.checkout != y.checkout && x.receipt == y.receipt && Succeeds(x) && Succeeds(y)
    ensures GuardsKept(cfg, TwoPayments(r, q, x, y, merchant))
    ensures
      var rows := Run(cfg, TwoPayments(r, q, x, y, merchant)).mem.rows;
      && 7 in rows && 8 in rows && rows[7].status.Completed? && rows[8].status.Completed?
      && rows[7].receipt == rows[8].receipt == x.receipt
  {
    hide RunFrom, Next;
    var initiated := TwoInitiations(r, q, x.checkout, y.checkout, merchant);
    var completed := initiated + Completion(2, x, 7);
    SecondInitiation(cfg, r, q, x.checkout, y.checkout, merchant);
    Completes(cfg, Run(cfg, initiated), 2, x, 7);
    RunAppends(cfg, Initial(), initiated, Completion(2, x, 7));
    Completes(cfg, Run(cfg, completed), 3, y, 8);
    RunAppends(cfg, Initial(), completed, Completion(3, y, 8));
    RedisUpKeepsGuards(cfg, TwoPayments(r, q, x, y, merchant));
  }
}
