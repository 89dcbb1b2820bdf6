/**
 What the statements write, column by column, and who runs them: what a row shows after a callback, and which
 labels can change which of its columns.
 */
module Columns {
  import opened Basics
  import opened Payments
  import opened StkProtocol
  import opened StkInvariant
  import opened Lifecycle

  /** The amount paid is the amount reported; zero, or no amount, leaves it empty. */
  predicate PaidAs(row: Payment, amount: Option<real>) {
    if amount.Some? && amount.value > 0.0 then row.amountPaid == amount else row.amountPaid == None
  }

  /** The row carries the outcome that the callback reports. */
  predicate Shows(row: Payment, cb: Callback) {
    && row.checkout == Some(cb.checkout)
    && if cb.code == 0 then
         row.status == Completed && row.receipt == cb.receipt && PaidAs(row, cb.amount) && row.paidAt == cb.paidAt
       else
         row.status == (if cb.code == 1032 then Cancelled else Failed) &&
         row.failureReason == Some(cb.description) && row.resultCode == Some(cb.code)
  }

  predicate SameIdColumns(x: Payment, y: Payment) {
    x.checkout == y.checkout && x.merchant == y.merchant
  }

  predicate SamePaidColumns(x: Payment, y: Payment) {
    x.receipt == y.receipt && x.amountPaid == y.amountPaid && x.paidAt == y.paidAt
  }

  predicate SameReasonColumns(x: Payment, y: Payment) {
    x.failureReason == y.failureReason && x.resultCode == y.resultCode
  }

  /** FAILED for that reason, the other columns as they were. */
  predicate FailedWith(row: Payment, row': Payment, reason: string, code: int) {
    && row'.status == Failed && row'.failureReason == Some(reason) && row'.resultCode == Some(code)
    && SameIdColumns(row, row') && SamePaidColumns(row, row')
  }

  /** What actor `x` makes of row `p` when its statement changes it; no other actor changes a row. */
  predicate ChangedBy(x: Actor, p: PaymentId, row: Payment, row': Payment) {
    match x
    case ApplyOutcome(cb, id) =>
      && id == p && Shows(row', cb) && SameIdColumns(row, row')
      && if cb.code == 0 then SameReasonColumns(row, row') else SamePaidColumns(row, row')
    case StoreIds(_, id, checkout, merchant) =>
      && id == p && row'.checkout == Some(checkout) && row'.merchant == Some(merchant)
      && row'.status == row.status && SamePaidColumns(row, row') && SameReasonColumns(row, row')
    case RecordFailure(_, id) =>
      id == p && FailedWith(row, row', "Daraja API call failed before initiation", 1)
    case Sweeping(batch) =>
      batch != [] && batch[0].id == p && FailedWith(row, row', "No callback received within 10 mins", -99)
    case _ => false
  }

  /**
   In every run, a row that a label changes keeps its key, phone, amount and creation time, and is changed by a
   callback, by an initiation that stores its ids or records its failure, or by the sweep, each in its own columns.
   */
  lemma ChangesTell(cfg: Config, ls: seq<Label>, l: Label, p: PaymentId)
    requires Sane(cfg) && p in Run(cfg, ls).mem.rows
    ensures p in Next(cfg, Run(cfg, ls), l).mem.rows
    ensures
      var s, row' := Run(cfg, ls), Next(cfg, Run(cfg, ls), l).mem.rows[p];
      row' != s.mem.rows[p] ==>
        && SameIdentity(s.mem.rows[p], row')
        && l.Act? && l.actor in s.actors && l.answer.Db? && !l.answer.db.DbDown?
        && ChangedBy(s.actors[l.actor], p, s.mem.rows[p], row')
  {
    InvAlways(cfg, ls);
    ChangeTells(cfg, Run(cfg, ls), l, p);
  }

  lemma ChangeTells(cfg: Config, s: State, l: Label, p: PaymentId)
    requires Sane(cfg) && Inv(cfg, s) && p in s.mem.rows
    ensures p in Next(cfg, s, l).mem.rows
    ensures
      var row' := Next(cfg, s, l).mem.rows[p];
      row' != s.mem.rows[p] ==>
        && SameIdentity(s.mem.rows[p], row')
        && l.Act? && l.actor in s.actors && l.answer.Db? && !l.answer.db.DbDown?
        && ChangedBy(s.actors[l.actor], p, s.mem.rows[p], row')
  {
    hide MemoryOk, Move, ChangedBy;
    if l.Act? && l.actor in s.actors {
      var x := s.actors[l.actor];
      assert ActorOk(cfg, s.mem, x);
      assert TableOk(s.mem.rows) by { TableOfMemory(cfg, s.mem); }
      MoveRow(cfg, s.mem, x, l.answer, p);
      var row' := Next(cfg, s, l).mem.rows[p];
      if row' != s.mem.rows[p] {
        NotViolated(cfg, s.mem, x, l.answer, p);
        StatementTells(cfg, s.mem, x, p);
      }
    }
  }

  lemma NotViolated(cfg: Config, m: Memory, x: Actor, answer: Answer, p: PaymentId)
    requires p in m.rows && Statement(cfg, m, x).Some? && answer.Db?
    requires p in Move(cfg, m, x, answer).mem.rows && Move(cfg, m, x, answer).mem.rows[p] != m.rows[p]
    ensures !Violates(m.rows, Statement(cfg, m, x).value)
  {
    hide Move, Statement, Violates;
    MoveRows(cfg, m, x, answer);
  }

  lemma StatementTells(cfg: Config, m: Memory, x: Actor, p: PaymentId)
    requires p in m.rows && ActorOk(cfg, m, x) && Statement(cfg, m, x).Some?
    requires
      var w := Statement(cfg, m, x).value;
      w.id == p && !w.Create? && !Violates(m.rows, w) && Updated(m.rows[p], w) != m.rows[p]
    ensures
      var row' := Updated(m.rows[p], Statement(cfg, m, x).value);
      SameIdentity(m.rows[p], row') && ChangedBy(x, p, m.rows[p], row')
  {
  }

  /** A callback's transaction that raises nothing leaves its outcome in the row. */
  lemma AppliedShows(rows: Table, cb: Callback, id: PaymentId, reply: DbReply)
    requires id in rows && rows[id].checkout == Some(cb.checkout) && !Raises(rows, CallbackWrite(cb, id), reply)
    ensures id in Settle(rows, CallbackWrite(cb, id), reply)
    ensures Shows(Settle(rows, CallbackWrite(cb, id), reply)[id], cb)
  {
  }

  /** In the sequential reference, too, a callback leaves what it reports. */
  lemma ReportedShows(row: Payment, cb: Callback)
    requires row.checkout == Some(cb.checkout) && !(cb.code == 0 && cb.amount.Some? && cb.amount.value < 0.0)
    ensures Shows(Updated(row, CallbackWrite(cb, 0)), cb)
  {
  }
}
