/**
 The payments table of app/models/payment.py and the statements that app/repository/payment_repo.py and
 the stale-payment sweep run against it. A transaction of the source is one statement and its commit;
 rows are read back only once committed, so statement and commit are one step here.
 */
module Payments {
  import opened Basics

  /** A UUID, as the 128-bit number it is. */
  type PaymentId = nat

  datatype Status = Pending | Completed | Failed | Cancelled | Reversed

  datatype Payment = Payment(key: string, phone: string, amount: int, createdAt: int, status: Status,
                             checkout: Option<string>, merchant: Option<string>,
                             receipt: Option<string>, amountPaid: Option<real>, paidAt: Option<int>,
                             failureReason: Option<string>, resultCode: Option<int>)

  type Table = map<PaymentId, Payment>

  const USER_CANCELLED := 1032
  const NO_CALLBACK := "No callback received within 10 mins"
  const NO_CALLBACK_CODE := -99

  function NewPayment(key: string, phone: string, amount: int, now: int): Payment {
    Payment(key, phone, amount, now, Pending, None, None, None, None, None, None, None)
  }

  /** The statements that change the table. `Expire` is the sweep's update, with or without a status test. */
  datatype Write =
    | Create(id: PaymentId, row: Payment)
    | UpdateDarajaIds(id: PaymentId, checkout: string, merchant: string)
    | MarkCompleted(id: PaymentId, receipt: Option<string>, amountPaid: Option<real>, paidAt: Option<int>)
    | MarkFailed(id: PaymentId, reason: string, code: int)
    | Expire(id: PaymentId, onlyPending: bool)

  /** Python's truth test on the reported amount: zero is stored as NULL. */
  function StoredAmount(amount: Option<real>): Option<real> {
    if amount == Some(0.0) then None else amount
  }

  /** The UNIQUE and CHECK constraints of the table. */
  predicate Violates(rows: Table, w: Write) {
    match w
    case Create(id, row) => id in rows || row.amount <= 0 || exists p <- rows.Keys :: rows[p].key == row.key
    case UpdateDarajaIds(id, checkout, _) =>
      id in rows && exists p <- rows.Keys :: p != id && rows[p].checkout == Some(checkout)
    case MarkCompleted(id, _, paid, _) => id in rows && StoredAmount(paid).Some? && StoredAmount(paid).value <= 0.0
    case _ => false
  }

  /** What an UPDATE writes into the row it names. */
  function Updated(row: Payment, w: Write): Payment {
    match w
    case Create(_, _) => row
    case UpdateDarajaIds(_, checkout, merchant) => row.(checkout := Some(checkout), merchant := Some(merchant))
    case MarkCompleted(_, receipt, paid, at) =>
      row.(status := Completed, receipt := receipt, amountPaid := StoredAmount(paid), paidAt := at)
    case MarkFailed(_, reason, code) =>
      row.(status := if code == USER_CANCELLED then Cancelled else Failed,
           failureReason := Some(reason), resultCode := Some(code))
    case Expire(_, onlyPending) =>
      if onlyPending && row.status != Pending then row
      else row.(status := Failed, failureReason := Some(NO_CALLBACK), resultCode := Some(NO_CALLBACK_CODE))
  }

  function Apply(rows: Table, w: Write): Table {
    if w.Create? then rows[w.id := w.row]
    else if w.id in rows then rows[w.id := Updated(rows[w.id], w)]
    else rows
  }

  /** How a transaction ends: committed, failed without effect, or committed although the caller sees an error. */
  datatype DbReply = DbOk | DbDown | DbLost

  function Settle(rows: Table, w: Write, reply: DbReply): Table {
    if Violates(rows, w) || reply.DbDown? then rows else Apply(rows, w)
  }

  predicate Raises(rows: Table, w: Write, reply: DbReply) {
    Violates(rows, w) || !reply.DbOk?
  }

  // ----- What every reachable table satisfies -----------------------------------------------------

  ghost predicate UniqueKeys(rows: Table) {
    forall p, q :: p in rows && q in rows && rows[p].key == rows[q].key ==> p == q
  }

  ghost predicate UniqueCheckouts(rows: Table) {
    forall p, q :: p in rows && q in rows && rows[p].checkout.Some? && rows[p].checkout == rows[q].checkout ==> p == q
  }

  /**
   A pending payment has no outcome; a completed or cancelled one was matched by its checkout id; Daraja's ids
   come together.
   */
  predicate RowShape(row: Payment) {
    && (row.status.Pending? ==>
          row.receipt.None? && row.amountPaid.None? && row.paidAt.None? &&
          row.failureReason.None? && row.resultCode.None?)
    && (row.status.Completed? || row.status.Cancelled? ==> row.checkout.Some?)
    && (row.checkout.Some? <==> row.merchant.Some?)
    && !row.status.Reversed?
  }

  /** And the CHECK constraints hold: amounts are positive. */
  predicate RowOk(row: Payment) {
    RowShape(row) && row.amount > 0 && (row.amountPaid.Some? ==> row.amountPaid.value > 0.0)
  }

  ghost predicate TableOk(rows: Table) {
    && UniqueKeys(rows)
    && UniqueCheckouts(rows)
    && forall p :: p in rows ==> RowOk(rows[p])
  }

  /** Rows stay, with their key, phone, amount and creation time; a stored checkout or merchant id stays too. */
  predicate SameIdentity(x: Payment, y: Payment) {
    x.key == y.key && x.phone == y.phone && x.amount == y.amount && x.createdAt == y.createdAt
  }

  ghost predicate Extends(rows: Table, rows': Table) {
    forall p :: p in rows ==> p in rows' && SameIdentity(rows[p], rows'[p])
  }

  ghost predicate SameIds(rows: Table, rows': Table) {
    forall p :: p in rows && p in rows' ==>
      rows'[p].checkout == rows[p].checkout && rows'[p].merchant == rows[p].merchant
  }

  /** Every checkout and merchant id outside row `id` is as before. */
  ghost predicate SameIdsExcept(rows: Table, rows': Table, id: PaymentId) {
    forall p :: p in rows && p in rows' && p != id ==>
      rows'[p].checkout == rows[p].checkout && rows'[p].merchant == rows[p].merchant
  }

  /** What the row named by `w` becomes when the transaction takes effect. */
  function RowAfter(rows: Table, w: Write): Payment
    requires w.Create? || w.id in rows
  {
    if w.Create? then w.row else Updated(rows[w.id], w)
  }

  lemma SettleShape(rows: Table, w: Write, reply: DbReply)
    ensures
      var rows' := Settle(rows, w, reply);
      rows' == rows ||
      (!Violates(rows, w) && (w.Create? || w.id in rows) && rows' == rows[w.id := RowAfter(rows, w)])
  {
  }

  /** The statements the service issues: new rows are pending, and only matched rows are completed or cancelled. */
  predicate Proper(rows: Table, w: Write) {
    && (w.Create? ==> RowShape(w.row) && w.row.checkout.None? && w.row.amountPaid.None?)
    && (w.MarkCompleted? || (w.MarkFailed? && w.code == USER_CANCELLED) ==> w.id in rows && rows[w.id].checkout.Some?)
  }

  lemma SettleKeepsKeysUnique(rows: Table, w: Write, reply: DbReply)
    requires UniqueKeys(rows)
    ensures UniqueKeys(Settle(rows, w, reply))
    ensures Extends(rows, Settle(rows, w, reply))
  {
    hide Settle;
    SettleShape(rows, w, reply);
  }

  lemma SettleKeepsCheckoutsUnique(rows: Table, w: Write, reply: DbReply)
    requires UniqueCheckouts(rows) && Proper(rows, w)
    ensures UniqueCheckouts(Settle(rows, w, reply))
  {
    hide Settle;
    SettleShape(rows, w, reply);
  }

  lemma SettleKeepsRowsOk(rows: Table, w: Write, reply: DbReply)
    requires (forall p :: p in rows ==> RowOk(rows[p])) && Proper(rows, w)
    ensures forall p :: p in Settle(rows, w, reply) ==> RowOk(Settle(rows, w, reply)[p])
  {
    hide Settle;
    SettleShape(rows, w, reply);
  }

  lemma SettleKeepsIds(rows: Table, w: Write, reply: DbReply)
    ensures SameIdsExcept(rows, Settle(rows, w, reply), w.id)
    ensures !w.UpdateDarajaIds? && !w.Create? ==> SameIds(rows, Settle(rows, w, reply))
  {
    hide Settle;
    SettleShape(rows, w, reply);
  }

  lemma SettleKeepsTable(rows: Table, w: Write, reply: DbReply)
    requires TableOk(rows) && Proper(rows, w)
    ensures TableOk(Settle(rows, w, reply))
    ensures Extends(rows, Settle(rows, w, reply))
    ensures SameIdsExcept(rows, Settle(rows, w, reply), w.id)
    ensures !w.UpdateDarajaIds? && !w.Create? ==> SameIds(rows, Settle(rows, w, reply))
  {
    hide Settle, UniqueKeys, UniqueCheckouts, RowOk, Proper, Extends, SameIdsExcept, SameIds;
    SettleKeepsKeysUnique(rows, w, reply);
    SettleKeepsCheckoutsUnique(rows, w, reply);
    SettleKeepsRowsOk(rows, w, reply);
    SettleKeepsIds(rows, w, reply);
  }

  // ----- The repository object --------------------------------------------------------------------

  /** The database that all sessions share. */
  class Database {
    var rows: Table

    constructor ()
      ensures rows == map[]
    {
      rows := map[];
    }
  }

  /** One session: a statement is held back until `Commit` and forgotten by `Rollback`. */
  class PaymentRepository {
    const db: Database
    var pending: Option<Write>

    constructor (db: Database)
      ensures this.db == db && pending == None
    {
      this.db, pending := db, None;
    }

    method Create(id: PaymentId, row: Payment)
      modifies this`pending
      ensures pending == Some(Write.Create(id, row))
    {
      pending := Some(Write.Create(id, row));
    }

    /** The two lookups raise on several matches; the UNIQUE constraints rule those out. */
    method GetByIdempotencyKey(key: string) returns (found: Option<PaymentId>)
      ensures found.None? ==> forall p :: p in db.rows ==> db.rows[p].key != key
      ensures found.Some? ==> found.value in db.rows && db.rows[found.value].key == key
    {
      if p :| p in db.rows && db.rows[p].key == key {
        return Some(p);
      }
      return None;
    }

    method GetByCheckoutRequestId(checkout: string) returns (found: Option<PaymentId>)
      ensures found.None? ==> forall p :: p in db.rows ==> db.rows[p].checkout != Some(checkout)
      ensures found.Some? ==> found.value in db.rows && db.rows[found.value].checkout == Some(checkout)
    {
      if p :| p in db.rows && db.rows[p].checkout == Some(checkout) {
        return Some(p);
      }
      return None;
    }

    method UpdateDarajaIds(id: PaymentId, checkout: string, merchant: string)
      modifies this`pending
      ensures pending == Some(Write.UpdateDarajaIds(id, checkout, merchant))
    {
      pending := Some(Write.UpdateDarajaIds(id, checkout, merchant));
    }

    method MarkCompleted(id: PaymentId, receipt: Option<string>, amountPaid: Option<real>, paidAt: Option<int>)
      modifies this`pending
      ensures pending == Some(Write.MarkCompleted(id, receipt, amountPaid, paidAt))
    {
      pending := Some(Write.MarkCompleted(id, receipt, amountPaid, paidAt));
    }

    method MarkFailed(id: PaymentId, reason: string, code: int)
      modifies this`pending
      ensures pending == Some(Write.MarkFailed(id, reason, code))
    {
      pending := Some(Write.MarkFailed(id, reason, code));
    }

    /** The sweep's own UPDATE, in a session of its own. */
    method Expire(id: PaymentId, onlyPending: bool)
      modifies this`pending
      ensures pending == Some(Write.Expire(id, onlyPending))
    {
      pending := Some(Write.Expire(id, onlyPending));
    }

    /** `reply` is what the database does with the transaction. */
    method Commit(reply: DbReply) returns (raised: bool)
      requires pending.Some?
      modifies this`pending, db
      ensures db.rows == Settle(old(db.rows), old(pending).value, reply)
      ensures raised == Raises(old(db.rows), old(pending).value, reply)
      ensures pending == None
    {
      var w := pending.value;
      pending := None;
      if Violates(db.rows, w) || reply.DbDown? {
        return true;
      }
      match w {
        case Create(id, row) =>
          db.rows := db.rows[id := row];
        case _ =>
          if w.id in db.rows {
            db.rows := db.rows[w.id := Updated(db.rows[w.id], w)];
          }
      }
      return reply.DbLost?;
    }

    method Rollback()
      modifies this`pending
      ensures pending == None
    {
      pending := None;
    }
  }
}
