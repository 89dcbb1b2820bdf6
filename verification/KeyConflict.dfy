/**
 The documented contract "same key and different parameters: 409 Conflict" (app/services/stk.py:6) against
 what the service does: parameters are compared nowhere, and the 409 it has means something else.
 */
module KeyConflict {
  import opened Payments
  import opened StkProtocol
  import opened StkInvariant
  import opened Scenarios

  // ----- When the 409 is raised -------------------------------------------------------------------

  predicate Conflicted(s: State, a: ActorId) {
    a in s.actors && s.actors[a].Finished? && s.actors[a].outcome == Raised(ConcurrentRequest)
  }

  /** The label is actor `a` finding the lock of its key held. */
  predicate MeetsLock(s: State, l: Label, a: ActorId) {
    l == Act(a, Redis(Up)) && a in s.actors && s.actors[a].TakeLock? && s.actors[a].req.key in s.mem.locks
  }

  predicate MetLock(cfg: Config, ls: seq<Label>, n: nat, a: ActorId) {
    n < |ls| && MeetsLock(Run(cfg, ls[..n]), ls[n], a)
  }

  /** Past the lock there is no 409. */
  predicate NoConflictInside(s: State, a: ActorId) {
    a in s.actors && s.actors[a].Release? ==> s.actors[a].outcome != Raised(ConcurrentRequest)
  }

  lemma ConflictStep(cfg: Config, s: State, l: Label, a: ActorId)
    requires NoConflictInside(s, a)
    ensures NoConflictInside(Next(cfg, s, l), a)
    ensures Conflicted(Next(cfg, s, l), a) <==> Conflicted(s, a) || MeetsLock(s, l, a)
  {
    hide Settle, Payments.Raises;
    if !By(l, a) {
      OthersLeave(cfg, s, l, a);
    }
  }

  /**
   A request ends in the 409 if and only if, at its own turn, Redis told it that the lock of its key was held:
   by whom, and with what parameters, plays no part.
   */
  lemma {:induction false} ConflictIff(cfg: Config, ls: seq<Label>, a: ActorId)
    ensures Conflicted(Run(cfg, ls), a) <==> exists n :: 0 <= n < |ls| && MetLock(cfg, ls, n, a)
    ensures NoConflictInside(Run(cfg, ls), a)
  {
    hide Next, MeetsLock;
    if ls != [] {
      var n := |ls| - 1;
      ConflictIff(cfg, ls[..n], a);
      ConflictStep(cfg, Run(cfg, ls[..n]), ls[n], a);
      assert forall k :: 0 <= k < n ==> ls[..n][..k] == ls[..k];
      assert forall k :: 0 <= k < n ==> (MetLock(cfg, ls, k, a) <==> MetLock(cfg, ls[..n], k, a));
      assert MetLock(cfg, ls, n, a) <==> MeetsLock(Run(cfg, ls[..n]), ls[n], a);
    }
  }

  // ----- Other parameters, same course ------------------------------------------------------------

  /** The same point of the program, for request `q`. */
  function WithRequest(x: Actor, q: Request): Actor {
    match x
    case ReadCache(_) => ReadCache(q)
    case TakeLock(_) => TakeLock(q)
    case LookUp(_) => LookUp(q)
    case Insert(_, id) => Insert(q, id)
    case Release(_, outcome) => Release(q, outcome)
    case Finished(_, outcome) => Finished(q, outcome)
    case _ => x
  }

  /** Not past a committed insert, and with the key of `q`. */
  predicate Early(x: Actor, q: Request) {
    && !x.Call? && !x.Attempt? && !x.StoreIds? && !x.RecordFailure? && !x.FillCache?
    && (x.ReadCache? || x.TakeLock? || x.LookUp? || x.Insert? || x.Release? || x.Finished? ==> x.req.key == q.key)
  }

  lemma SameMove(cfg: Config, m: Memory, x: Actor, q: Request, answer: Answer)
    requires Early(x, q) && !(x.Insert? && answer.Db?)
    ensures
      var step, step' := Move(cfg, m, x, answer), Move(cfg, m, WithRequest(x, q), answer);
      step'.mem == step.mem && step'.actor == WithRequest(step.actor, q) && Early(step.actor, q)
  {
    hide Settle, Payments.Raises;
  }

  /** The label with the parameters of `q` put into the request of actor `a`. */
  function WithParameters(l: Label, a: ActorId, q: Request): Label {
    if l.Arrive? && l.actor == a then Arrive(a, q) else l
  }

  function Replaced(ls: seq<Label>, a: ActorId, q: Request): seq<Label> {
    seq(|ls|, i requires 0 <= i < |ls| => WithParameters(ls[i], a, q))
  }

  /** The state with the parameters of `q` put into actor `a`. */
  function Recast(s: State, a: ActorId, q: Request): State {
    if a in s.actors then s.(actors := s.actors[a := WithRequest(s.actors[a], q)]) else s
  }

  /** Label `l` gives actor `a` no other key, and does not take it into its insert. */
  predicate BeforeInsert(s: State, l: Label, a: ActorId, q: Request) {
    && (l.Arrive? && l.actor == a ==> l.req.key == q.key)
    && (l.Act? && l.actor == a && l.answer.Db? && a in s.actors ==> !s.actors[a].Insert?)
  }

  ghost predicate InsertsNothing(cfg: Config, ls: seq<Label>, a: ActorId, q: Request) {
    forall n :: 0 <= n < |ls| ==> BeforeInsert(Run(cfg, ls[..n]), ls[n], a, q)
  }

  lemma SameUnwinding(x: Actor, q: Request)
    requires Early(x, q)
    ensures Unwound(WithRequest(x, q)) == WithRequest(Unwound(x), q) && Early(Unwound(x), q)
    ensures Over(WithRequest(x, q)) <==> Over(x)
    ensures WithRequest(Crashed, q) == Crashed && Early(Crashed, q)
  {
  }

  /** Putting actor `b` at `x`, or at `x'` in the recast state, leaves the one the recast of the other. */
  lemma SameUpdate(s: State, b: ActorId, x: Actor, x': Actor, a: ActorId, q: Request)
    requires x' == if b == a then WithRequest(x, q) else x
    ensures
      var s' := s.(actors := s.actors[b := x]);
      Recast(s, a, q).(actors := Recast(s, a, q).actors[b := x']) == Recast(s', a, q)
  {
    hide WithRequest;
    var s' := s.(actors := s.actors[b := x]);
    assert Recast(s, a, q).actors[b := x'] == Recast(s', a, q).actors;
  }

  lemma SameAct(cfg: Config, s: State, b: ActorId, answer: Answer, a: ActorId, q: Request)
    requires (a in s.actors ==> Early(s.actors[a], q)) && BeforeInsert(s, Act(b, answer), a, q)
    ensures
      var s' := Next(cfg, s, Act(b, answer));
      Next(cfg, Recast(s, a, q), Act(b, answer)) == Recast(s', a, q) && (a in s'.actors ==> Early(s'.actors[a], q))
  {
    hide Move, Early, WithRequest;
    if b in s.actors {
      var step := Move(cfg, s.mem, s.actors[b], answer);
      var x' := if b == a then WithRequest(step.actor, q) else step.actor;
      if b == a {
        SameMove(cfg, s.mem, s.actors[a], q, answer);
      }
      SameUpdate(s.(mem := step.mem), b, step.actor, x', a, q);
    }
  }

  lemma SameSpawn(s: State, b: ActorId, x: Actor, a: ActorId, q: Request)
    requires (a in s.actors ==> Early(s.actors[a], q)) && (b == a ==> Early(x, q))
    ensures Spawn(Recast(s, a, q), b, if b == a then WithRequest(x, q) else x) == Recast(Spawn(s, b, x), a, q)
    ensures a in Spawn(s, b, x).actors ==> Early(Spawn(s, b, x).actors[a], q)
  {
    hide Early, WithRequest;
    SameUpdate(s, b, x, if b == a then WithRequest(x, q) else x, a, q);
  }

  lemma SameStop(cfg: Config, s: State, l: Label, a: ActorId, q: Request)
    requires (a in s.actors ==> Early(s.actors[a], q)) && (l.Crash? || l.Cancel?)
    ensures Next(cfg, Recast(s, a, q), l) == Recast(Next(cfg, s, l), a, q)
    ensures a in Next(cfg, s, l).actors ==> Early(Next(cfg, s, l).actors[a], q)
  {
    var b := l.actor;
    if a in s.actors {
      SameUnwinding(s.actors[a], q);
    }
    hide Early, WithRequest, Unwound, Over;
    if b in s.actors {
      var x := if l.Crash? then Crashed else Unwound(s.actors[b]);
      SameUpdate(s, b, x, if b == a then WithRequest(x, q) else x, a, q);
    }
  }

  lemma SameStep(cfg: Config, s: State, l: Label, a: ActorId, q: Request)
    requires BeforeInsert(s, l, a, q) && (a in s.actors ==> Early(s.actors[a], q))
    ensures Next(cfg, Recast(s, a, q), WithParameters(l, a, q)) == Recast(Next(cfg, s, l), a, q)
    ensures a in Next(cfg, s, l).actors ==> Early(Next(cfg, s, l).actors[a], q)
  {
    hide Recast, Spawn;
    match l {
      case Act(b, answer) => SameAct(cfg, s, b, answer, a, q);
      case Arrive(b, req) => SameSpawn(s, b, ReadCache(req), a, q);
      case Deliver(b, cb) => SameSpawn(s, b, TakeGuard(cb), a, q);
      case Beat(b) => SameBeat(cfg, s, b, a, q);
      case Crash(_) => SameStop(cfg, s, l, a, q);
      case Cancel(_) => SameStop(cfg, s, l, a, q);
      case _ => SameDrift(cfg, s, l, a, q);
    }
  }

  lemma SameBeat(cfg: Config, s: State, b: ActorId, a: ActorId, q: Request)
    requires a in s.actors ==> Early(s.actors[a], q)
    ensures Next(cfg, Recast(s, a, q), Beat(b)) == Recast(Next(cfg, s, Beat(b)), a, q)
    ensures a in Next(cfg, s, Beat(b)).actors ==> Early(Next(cfg, s, Beat(b)).actors[a], q)
  {
    hide Spawn;
    SameSpawn(s, b, Select(s.mem.now - STALE_AFTER), a, q);
  }

  lemma SameDrift(cfg: Config, s: State, l: Label, a: ActorId, q: Request)
    requires (a in s.actors ==> Early(s.actors[a], q)) && (l.Tick? || l.LoseLock? || l.LoseCache? || l.LoseGuard?)
    ensures Next(cfg, Recast(s, a, q), l) == Recast(Next(cfg, s, l), a, q)
    ensures a in Next(cfg, s, l).actors ==> Early(Next(cfg, s, l).actors[a], q)
  {
  }

  /**
   Phone and amount decide nothing before the insert: replace the parameters of one request, and every run
   that does not yet run its insert is the same run, memory, other actors, and its own course and outcome,
   the 409 included. So no path refuses a key for coming back with other parameters.
   */
  lemma {:induction false} ParametersAreNotCompared(cfg: Config, ls: seq<Label>, a: ActorId, q: Request)
    requires InsertsNothing(cfg, ls, a, q)
    ensures Run(cfg, Replaced(ls, a, q)) == Recast(Run(cfg, ls), a, q)
    ensures a in Run(cfg, ls).actors ==> Early(Run(cfg, ls).actors[a], q)
  {
    hide Next, BeforeInsert, Early;
    var ls' := Replaced(ls, a, q);
    if ls != [] {
      var n := |ls| - 1;
      assert InsertsNothing(cfg, ls[..n], a, q) by {
        assert forall k :: 0 <= k < n ==> ls[..n][..k] == ls[..k] && ls[..n][k] == ls[k];
      }
      ParametersAreNotCompared(cfg, ls[..n], a, q);
      assert ls'[..n] == Replaced(ls[..n], a, q);
      SameStep(cfg, Run(cfg, ls[..n]), ls[n], a, q);
    }
  }

  // ----- What happens instead ---------------------------------------------------------------------

  /** Request `r` of actor 0 is initiated and cached; then request `q` of actor 1 arrives. */
  function Replay(r: Request, q: Request, checkout: string, merchant: string): seq<Label> {
    Approach(0, r, 7) + Push(0, checkout, merchant) + Acts(0, [Redis(Up)]) + ([Arrive(1, q)] + Acts(1, [Redis(Up)]))
  }

  /** With one key and whatever other parameters, the second request is answered with the first one's payment. */
  lemma OtherParametersAreAnswered(cfg: Config, r: Request, q: Request, checkout: string, merchant: string)
    requires r.key == q.key && r.amount > 0
    ensures
      var s := Run(cfg, Replay(r, q, checkout, merchant));
      && s.mem.rows == map[7 := StoredRow(r, 0, checkout, merchant)]
      && 1 in s.actors && s.actors[1] == Finished(q, Returned(Response(7, checkout, merchant, Pending)))
  {
    hide RunFrom, Next, Move;
    var response := Response(7, checkout, merchant, Pending);
    var approached := Approach(0, r, 7);
    var pushed := approached + Push(0, checkout, merchant);
    var cached := pushed + Acts(0, [Redis(Up)]);
    Approaches(cfg, Initial(), 0, r, 7);
    Pushes(cfg, Run(cfg, approached), 0, r, 7, checkout, merchant);
    RunAppends(cfg, Initial(), approached, Push(0, checkout, merchant));
    var s := Run(cfg, pushed);
    CacheFills(cfg, s, 0, r, response);
    RunAppends(cfg, Initial(), pushed, Acts(0, [Redis(Up)]));
    CacheAnswers(cfg, Run(cfg, cached), 1, q, response);
    RunAppends(cfg, Initial(), cached, [Arrive(1, q)] + Acts(1, [Redis(Up)]));
  }

  lemma CacheFills(cfg: Config, s: State, a: ActorId, r: Request, response: Response)
    requires a in s.actors && s.actors[a] == FillCache(r, response)
    ensures RunFrom(cfg, s, Acts(a, [Redis(Up)]))
         == State(s.mem.(cache := s.mem.cache[r.key := response]), s.actors[a := Release(r, Returned(response))])
  {
    Course(cfg, s, a, [Redis(Up)], [Step(s.mem, s.actors[a]), Step(s.mem.(cache := s.mem.cache[r.key := response]),
                                                                  Release(r, Returned(response)))]);
  }

  lemma CacheAnswers(cfg: Config, s: State, a: ActorId, q: Request, response: Response)
    requires a !in s.actors && q.key in s.mem.cache && s.mem.cache[q.key] == response
    ensures RunFrom(cfg, s, [Arrive(a, q)] + Acts(a, [Redis(Up)]))
         == State(s.mem, s.actors[a := Finished(q, Returned(response))])
  {
    ArrivalAndCourse(cfg, s, Arrive(a, q), a, ReadCache(q), [Redis(Up)],
                     [Step(s.mem, ReadCache(q)), Step(s.mem, Finished(q, Returned(response)))]);
  }
}
