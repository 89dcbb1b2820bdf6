/**
 How fast the stale-payment sweep of app/tasks/reconciliation_tasks.py works when nothing else does: each
 beat fails the fifty stale rows it selects, whichever they are, so n stale rows take ceil(n / 50) beats.
 */
module StaleSweep {
  import opened Basics
  import opened Payments
  import opened StkProtocol
  import opened StkInvariant

  /** One beat: how long after the one before, and which stale rows the SELECT happens to return. */
  datatype Sweep = Sweep(wait: nat, actor: ActorId, ids: seq<PaymentId>)

  function Writes(a: ActorId, n: nat): seq<Label> {
    seq(n, _ => Act(a, Db(DbOk)))
  }

  function LabelsOf(w: Sweep): seq<Label> {
    [Tick(w.wait), Beat(w.actor), Act(w.actor, Batch(w.ids))] + Writes(w.actor, |w.ids|)
  }

  function AllLabels(ws: seq<Sweep>): seq<Label> {
    if ws == [] then [] else AllLabels(ws[..|ws| - 1]) + LabelsOf(ws[|ws| - 1])
  }

  function TotalWait(ws: seq<Sweep>): nat {
    if ws == [] then 0 else TotalWait(ws[..|ws| - 1]) + ws[|ws| - 1].wait
  }

  function StaleSet(rows: Table, cutoff: int): set<PaymentId> {
    set p | p in rows && rows[p].status.Pending? && rows[p].createdAt < cutoff
  }

  function Expired(row: Payment): Payment {
    row.(status := Failed, failureReason := Some("No callback received within 10 mins"), resultCode := Some(-99))
  }

  /** Nothing queried: no PENDING row has a receipt (in every reachable state, Idempotency.PendingRowsAreBlank). */
  predicate Blank(rows: Table) {
    forall p <- rows.Keys :: rows[p].status.Pending? ==> rows[p].receipt.None?
  }

  /** No PENDING row becomes stale within `wait` seconds. */
  predicate NoneComing(m: Memory, wait: nat) {
    forall p <- m.rows.Keys :: m.rows[p].status.Pending? && m.rows[p].createdAt < m.now + wait - 600 ==>
      m.rows[p].createdAt < m.now - 600
  }

  /** Each sweep is a new actor and selects what its SELECT may return; nobody else moves. */
  predicate Undisturbed(cfg: Config, s: State, ws: seq<Sweep>) {
    ws == [] ||
    (var n := |ws| - 1;
     var before := RunFrom(cfg, s, AllLabels(ws[..n]));
     Undisturbed(cfg, s, ws[..n]) && ws[n].actor !in before.actors &&
     Selects(before.mem.rows, before.mem.now + ws[n].wait - 600, ws[n].ids))
  }

  // ----- One sweep --------------------------------------------------------------------------------

  function ExpireAll(rows: Table, ids: seq<PaymentId>): Table {
    map p | p in rows :: if p in ids then Expired(rows[p]) else rows[p]
  }

  lemma FirstWrite(cfg: Config, s: State, a: ActorId, batch: seq<Candidate>)
    requires a in s.actors && s.actors[a] == Sweeping(batch) && batch != [] && batch[0].receipt.None?
    requires batch[0].id in s.mem.rows && s.mem.rows[batch[0].id].status.Pending?
    ensures
      var rows := s.mem.rows;
      Next(cfg, s, Act(a, Db(DbOk)))
        == State(s.mem.(rows := rows[batch[0].id := Expired(rows[batch[0].id])]), s.actors[a := Sweeping(batch[1..])])
  {
  }

  lemma ExpireFirst(rows: Table, ids: seq<PaymentId>)
    requires ids != [] && ids[0] in rows && ids[0] !in ids[1..]
    ensures ExpireAll(rows[ids[0] := Expired(rows[ids[0]])], ids[1..]) == ExpireAll(rows, ids)
  {
    hide Expired;
    assert ids == [ids[0]] + ids[1..];
  }

  /** The batch loop writes row after row, with or without the status test. */
  lemma {:induction false} BatchIsWritten(cfg: Config, s: State, a: ActorId, batch: seq<Candidate>, ids: seq<PaymentId>)
    requires a in s.actors && s.actors[a] == Sweeping(batch) && |ids| == |batch|
    requires forall i :: 0 <= i < |ids| ==> batch[i].id == ids[i] && batch[i].receipt.None?
    requires forall i, j :: 0 <= i < j < |ids| ==> ids[i] != ids[j]
    requires forall id :: id in ids ==> id in s.mem.rows && s.mem.rows[id].status.Pending?
    ensures RunFrom(cfg, s, Writes(a, |ids|))
         == State(s.mem.(rows := ExpireAll(s.mem.rows, ids)), s.actors[a := Sweeping([])])
    decreases |batch|
  {
    hide RunFrom, Next, ExpireAll, Expired;
    if batch == [] {
      NothingRun(cfg, s);
      ExpireNone(s.mem.rows);
      assert ids == [] && Writes(a, 0) == [] && s.actors[a := Sweeping([])] == s.actors;
    } else {
      var l := Act(a, Db(DbOk));
      var s1 := Next(cfg, s, l);
      assert ids[0] in ids;
      FirstWrite(cfg, s, a, batch);
      BatchIsWritten(cfg, s1, a, batch[1..], ids[1..]);
      ExpireFirst(s.mem.rows, ids);
      OneRun(cfg, s, l);
      assert Writes(a, |ids|) == [l] + Writes(a, |ids| - 1);
      RunAppends(cfg, s, [l], Writes(a, |ids| - 1));
      assert s1.actors[a := Sweeping([])] == s.actors[a := Sweeping([])];
    }
  }

  lemma ExpireNone(rows: Table)
    ensures ExpireAll(rows, []) == rows
  {
  }

  lemma NothingRun(cfg: Config, s: State)
    ensures RunFrom(cfg, s, []) == s
  {
  }

  lemma OneRun(cfg: Config, s: State, l: Label)
    ensures RunFrom(cfg, s, [l]) == Next(cfg, s, l)
  {
    RunExtends(cfg, s, [], [l], l);
    NothingRun(cfg, s);
  }

  /** A whole beat: exactly the selected rows are failed. */
  lemma SweepFails(cfg: Config, s: State, w: Sweep)
    requires Blank(s.mem.rows) && w.actor !in s.actors && Selects(s.mem.rows, s.mem.now + w.wait - 600, w.ids)
    ensures
      var s' := RunFrom(cfg, s, LabelsOf(w));
      && s'.mem == s.mem.(rows := ExpireAll(s.mem.rows, w.ids), now := s.mem.now + w.wait)
      && s'.actors == s.actors[w.actor := Sweeping([])]
  {
    hide RunFrom;
    var start := [Tick(w.wait), Beat(w.actor), Act(w.actor, Batch(w.ids))];
    var m1 := s.mem.(now := s.mem.now + w.wait);
    var batch := Candidates(s.mem.rows, w.ids);
    var s1 := s.(mem := m1);
    var s2 := State(m1, s.actors[w.actor := Select(m1.now - 600)]);
    var s3 := State(m1, s.actors[w.actor := Sweeping(batch)]);
    RunIsTrace(cfg, [s, s1, s2, s3], start);
    BatchIsWritten(cfg, s3, w.actor, batch, w.ids);
    RunAppends(cfg, s, start, Writes(w.actor, |w.ids|));
    assert s3.actors[w.actor := Sweeping([])] == s.actors[w.actor := Sweeping([])];
  }

  // ----- Counting ---------------------------------------------------------------------------------

  function Elements(ids: seq<PaymentId>): set<PaymentId> {
    set id | id in ids
  }

  lemma {:induction false} DistinctCount(ids: seq<PaymentId>)
    requires forall i, j :: 0 <= i < j < |ids| ==> ids[i] != ids[j]
    ensures |Elements(ids)| == |ids|
  {
    if ids != [] {
      var n := |ids| - 1;
      DistinctCount(ids[..n]);
      assert ids == ids[..n] + [ids[n]];
      assert Elements(ids) == Elements(ids[..n]) + {ids[n]};
    }
  }

  function Monus(x: nat, y: nat): nat {
    if x <= y then 0 else x - y
  }

  /** A beat takes fifty rows off the stale ones, or what is left of them. */
  lemma SweepCounts(rows: Table, cutoff: int, ids: seq<PaymentId>)
    requires Selects(rows, cutoff, ids)
    ensures StaleSet(ExpireAll(rows, ids), cutoff) == StaleSet(rows, cutoff) - Elements(ids)
    ensures Elements(ids) <= StaleSet(rows, cutoff)
    ensures |StaleSet(ExpireAll(rows, ids), cutoff)| == Monus(|StaleSet(rows, cutoff)|, 50)
  {
    DistinctCount(ids);
    assert |ids| < 50 ==> Elements(ids) == StaleSet(rows, cutoff);
    SubsetCount(Elements(ids), StaleSet(rows, cutoff));
    assert StaleSet(ExpireAll(rows, ids), cutoff) == StaleSet(rows, cutoff) - Elements(ids);
  }

  lemma SubsetCount(xs: set<PaymentId>, ys: set<PaymentId>)
    requires xs <= ys
    ensures |xs| <= |ys| && |ys - xs| == |ys| - |xs|
  {
    assert ys == xs + (ys - xs);
  }

  // ----- Many sweeps ------------------------------------------------------------------------------

  /** Compared with `rows0`, nothing changed but stale rows that expired. */
  ghost predicate OnlyExpired(rows0: Table, rows: Table, cutoff: int) {
    && rows.Keys == rows0.Keys
    && forall p :: p in rows ==> rows[p] == rows0[p] || (Stale(rows0[p], cutoff) && rows[p] == Expired(rows0[p]))
  }

  /** Where things stand after a number of sweeps. */
  ghost predicate Drained(s: State, s': State, wait: nat, sweeps: nat) {
    var cutoff := s.mem.now - 600;
    && s'.mem.now == s.mem.now + wait
    && OnlyExpired(s.mem.rows, s'.mem.rows, cutoff)
    && |StaleSet(s'.mem.rows, cutoff)| == Monus(|StaleSet(s.mem.rows, cutoff)|, 50 * sweeps)
  }

  /** Among rows that only ever expired, none becomes stale either. */
  lemma SameStale(m: Memory, rows: Table, total: nat, late: int)
    requires OnlyExpired(m.rows, rows, m.now - 600) && NoneComing(m, total)
    requires m.now - 600 <= late <= m.now + total - 600
    ensures StaleSet(rows, late) == StaleSet(rows, m.now - 600)
  {
  }

  lemma ExpiredRows(rows0: Table, rows: Table, cutoff: int, ids: seq<PaymentId>)
    requires OnlyExpired(rows0, rows, cutoff) && Elements(ids) <= StaleSet(rows, cutoff)
    ensures OnlyExpired(rows0, ExpireAll(rows, ids), cutoff)
  {
    forall p | p in rows && p in ids
      ensures Stale(rows0[p], cutoff) && rows[p] == rows0[p]
    {
      assert p in Elements(ids);
    }
  }

  lemma DrainedOnce(cfg: Config, s: State, u: State, w: Sweep, wait: nat, total: nat, sweeps: nat)
    requires Drained(s, u, wait, sweeps) && Blank(s.mem.rows) && wait + w.wait <= total && NoneComing(s.mem, total)
    requires w.actor !in u.actors && Selects(u.mem.rows, u.mem.now + w.wait - 600, w.ids)
    ensures Drained(s, RunFrom(cfg, u, LabelsOf(w)), wait + w.wait, sweeps + 1)
  {
    var cutoff := s.mem.now - 600;
    var late := u.mem.now + w.wait - 600;
    var rows' := ExpireAll(u.mem.rows, w.ids);
    hide RunFrom, Selects, NoneComing, StaleSet, ExpireAll, Blank, LabelsOf, OnlyExpired, Elements;
    StillBlank(s.mem.rows, u.mem.rows, cutoff);
    SweepFails(cfg, u, w);
    SweepCounts(u.mem.rows, late, w.ids);
    SameStale(s.mem, u.mem.rows, total, late);
    ExpiredRows(s.mem.rows, u.mem.rows, cutoff, w.ids);
    SameStale(s.mem, rows', total, late);
  }

  lemma StillBlank(rows0: Table, rows: Table, cutoff: int)
    requires OnlyExpired(rows0, rows, cutoff) && Blank(rows0)
    ensures Blank(rows)
  {
  }

  /** Undisturbed sweeps fail only stale rows, fifty at a time, as long as there are fifty. */
  lemma {:induction false} SweepsDrain(cfg: Config, s: State, ws: seq<Sweep>, total: nat)
    requires Blank(s.mem.rows) && TotalWait(ws) <= total && NoneComing(s.mem, total) && Undisturbed(cfg, s, ws)
    ensures Drained(s, RunFrom(cfg, s, AllLabels(ws)), TotalWait(ws), |ws|)
  {
    hide RunFrom, Drained;
    if ws == [] {
      NothingRun(cfg, s);
      DrainedNot(s);
    } else {
      var n := |ws| - 1;
      SweepsDrain(cfg, s, ws[..n], total);
      DrainedOnce(cfg, s, RunFrom(cfg, s, AllLabels(ws[..n])), ws[n], TotalWait(ws[..n]), total, n);
      RunAppends(cfg, s, AllLabels(ws[..n]), LabelsOf(ws[n]));
    }
  }

  lemma DrainedNot(s: State)
    ensures Drained(s, s, 0, 0)
  {
  }

  /**
   In every reachable state with n stale rows, and none about to become stale, all of them are FAILED
   once ceil(n / 50) undisturbed sweeps have run, and not before: one sweep fewer leaves a stale row.
   */
  lemma StaleRowsFail(cfg: Config, ls: seq<Label>, ws: seq<Sweep>)
    requires Sane(cfg) && Undisturbed(cfg, Run(cfg, ls), ws) && NoneComing(Run(cfg, ls).mem, TotalWait(ws))
    ensures
      var s := Run(cfg, ls);
      var rows' := Run(cfg, ls + AllLabels(ws)).mem.rows;
      var stale := StaleSet(s.mem.rows, s.mem.now - 600);
      && rows'.Keys == s.mem.rows.Keys
      && (forall p :: p in s.mem.rows && p !in stale ==> rows'[p] == s.mem.rows[p])
      && ((forall p :: p in stale ==> rows'[p] == Expired(s.mem.rows[p])) <==> |stale| <= 50 * |ws|)
  {
    hide RunFrom, Inv, Undisturbed, Drained, Blank, NoneComing, StaleSet, Expired;
    var s := Run(cfg, ls);
    InvAlways(cfg, ls);
    BlankAlways(cfg, s);
    SweepsDrain(cfg, s, ws, TotalWait(ws));
    RunAppends(cfg, Initial(), ls, AllLabels(ws));
    DrainedRows(s, RunFrom(cfg, s, AllLabels(ws)), TotalWait(ws), |ws|);
  }

  lemma DrainedRows(s: State, s': State, wait: nat, sweeps: nat)
    requires Drained(s, s', wait, sweeps)
    ensures
      var stale := StaleSet(s.mem.rows, s.mem.now - 600);
      var rows' := s'.mem.rows;
      && rows'.Keys == s.mem.rows.Keys
      && (forall p :: p in s.mem.rows && p !in stale ==> rows'[p] == s.mem.rows[p])
      && ((forall p :: p in stale ==> rows'[p] == Expired(s.mem.rows[p])) <==> |stale| <= 50 * sweeps)
  {
    hide OnlyExpired, StaleSet, Expired;
    var cutoff := s.mem.now - 600;
    FreshRowsStay(s.mem.rows, s'.mem.rows, cutoff);
    NoneLeftIff(s.mem.rows, s'.mem.rows, cutoff);
    assert |StaleSet(s'.mem.rows, cutoff)| == 0 <==> StaleSet(s'.mem.rows, cutoff) == {};
  }

  lemma FreshRowsStay(rows0: Table, rows: Table, cutoff: int)
    requires OnlyExpired(rows0, rows, cutoff)
    ensures rows.Keys == rows0.Keys
    ensures forall p :: p in rows0 && p !in StaleSet(rows0, cutoff) ==> rows[p] == rows0[p]
  {
    hide Expired;
  }

  /** What is no longer stale has expired. */
  lemma NoneLeftIff(rows0: Table, rows: Table, cutoff: int)
    requires OnlyExpired(rows0, rows, cutoff)
    ensures rows.Keys == rows0.Keys && forall p :: p in StaleSet(rows0, cutoff) ==> p in rows
    ensures (forall p :: p in StaleSet(rows0, cutoff) ==> rows[p] == Expired(rows0[p])) <==>
              StaleSet(rows, cutoff) == {}
  {
    forall p | p in rows0
      ensures p in StaleSet(rows, cutoff) <==> p in StaleSet(rows0, cutoff) && rows[p] != Expired(rows0[p])
    {
    }
  }

  lemma BlankAlways(cfg: Config, s: State)
    requires Inv(cfg, s)
    ensures Blank(s.mem.rows)
  {
    assert forall p :: p in s.mem.rows ==> RowOk(s.mem.rows[p]);
  }
}
