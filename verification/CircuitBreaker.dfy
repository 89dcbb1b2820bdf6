/**
 The per-process circuit breaker and bounded retry of app/daraja/client.py. One breaker is shared by
 any number of interleaved `post` calls. The breaker is checked once per post, while an admitted post
 goes on retrying whatever the breaker does.

 A run is any sequence of labels: `Next` is total, and a label that does not apply changes nothing.
 `wiring` selects the comparison that app/daraja/client.py:127 contains, or the assignment it means.
 */
module CircuitBreaker {
  import opened Basics

  datatype CircuitState = Closed | Open | HalfOpen

  datatype Wiring = AsWritten | AsMeant

  datatype Settings = Settings(threshold: nat, timeout: nat, attempts: nat, wiring: Wiring)

  /** The lower bounds that app/config.py:58-66 puts on the settings. */
  predicate Sane(cfg: Settings) {
    cfg.threshold >= 1 && cfg.timeout >= 1 && cfg.attempts >= 1
  }

  datatype Breaker = Breaker(state: CircuitState, failures: nat, lastFailure: real)

  // ----- The three methods of the breaker ---------------------------------------------------------

  datatype Check = Admitted(breaker: Breaker) | Refused(retryAfter: int)

  function CheckCircuit(cfg: Settings, b: Breaker, now: real): Check {
    if b.state.Open? then
      var elapsed := now - b.lastFailure;
      if elapsed >= cfg.timeout as real then Admitted(b.(state := HalfOpen))
      else Refused(Truncate(cfg.timeout as real - elapsed))
    else Admitted(b)
  }

  /** Python's int() of a float. */
  function Truncate(x: real): int {
    if x >= 0.0 then x.Floor else -(-x).Floor
  }

  function OnSuccess(b: Breaker): Breaker {
    b.(failures := 0, state := Closed)
  }

  function OnFailure(cfg: Settings, b: Breaker, now: real): Breaker {
    var b1 := b.(failures := b.failures + 1, lastFailure := now);
    if (b1.failures >= cfg.threshold || b1.state.HalfOpen?) && cfg.wiring.AsMeant?
    then b1.(state := Open) else b1
  }

  // ----- Interleaved posts ------------------------------------------------------------------------

  /** A post between requests, waiting for a reply, or finished. */
  datatype Post = Ready(used: nat) | Sent(used: nat) | Finished(exit: Exit)

  /** How `post` ends. DarajaTimeoutError is among the exits the source names. */
  datatype Exit = Response | CircuitOpenError | DarajaError | RetryError | DarajaTimeoutError | OtherError

  /** `ClientError` is any DarajaError, a refused OAuth request included; `Unforeseen` any other exception. */
  datatype Reply = Success | TransportError | ServerError | ClientError | Unforeseen

  /** A reply that came in, for which post and when. */
  datatype Event = Answered(post: nat, reply: Reply, at: real)

  datatype State = State(breaker: Breaker, posts: seq<Post>, now: real, started: nat, log: seq<Event>)

  datatype Label = Tick(seconds: real) | Begin | Request(post: nat) | Answer(post: nat, reply: Reply)

  function Initial(): State {
    State(Breaker(Closed, 0, 0.0), [], 0.0, 0, [])
  }

  /** What one reply does to the breaker: a 5xx is counted where it is seen and again where it is caught. */
  function Absorb(cfg: Settings, b: Breaker, reply: Reply, now: real): Breaker {
    match reply
    case Success => OnSuccess(b)
    case TransportError => OnFailure(cfg, b, now)
    case ServerError => OnFailure(cfg, OnFailure(cfg, b, now), now)
    case _ => b
  }

  /** What it does to the post: transient errors are retried until the attempts are used up. */
  function Proceed(cfg: Settings, used: nat, reply: Reply): Post {
    match reply
    case Success => Finished(Response)
    case ClientError => Finished(DarajaError)
    case Unforeseen => Finished(OtherError)
    case _ => if used < cfg.attempts then Ready(used) else Finished(RetryError)
  }

  function Next(cfg: Settings, s: State, l: Label): State {
    match l
    case Tick(seconds) => if seconds >= 0.0 then s.(now := s.now + seconds) else s
    case Begin =>
      (match CheckCircuit(cfg, s.breaker, s.now)
       case Admitted(b) => s.(breaker := b, posts := s.posts + [Ready(0)])
       case Refused(_) => s.(posts := s.posts + [Finished(CircuitOpenError)]))
    case Request(p) =>
      if p < |s.posts| && s.posts[p].Ready? && s.posts[p].used < cfg.attempts then
        s.(posts := s.posts[p := Sent(s.posts[p].used + 1)], started := s.started + 1)
      else s
    case Answer(p, reply) =>
      if p < |s.posts| && s.posts[p].Sent? then
        s.(breaker := Absorb(cfg, s.breaker, reply, s.now),
           posts := s.posts[p := Proceed(cfg, s.posts[p].used, reply)],
           log := s.log + [Answered(p, reply, s.now)])
      else s
  }

  function Run(cfg: Settings, s: State, ls: seq<Label>): State {
    if ls == [] then s else Next(cfg, Run(cfg, s, ls[..|ls| - 1]), ls[|ls| - 1])
  }

  // ----- When the circuit is closed ---------------------------------------------------------------

  /** Transport errors plus twice the 5xx replies since the last success. */
  function FailuresSince(log: seq<Event>): nat {
    if log == [] then 0
    else
      var n := |log| - 1;
      match log[n].reply
      case Success => 0
      case TransportError => FailuresSince(log[..n]) + 1
      case ServerError => FailuresSince(log[..n]) + 2
      case _ => FailuresSince(log[..n])
  }

  predicate Transient(reply: Reply) {
    reply.TransportError? || reply.ServerError?
  }

  /** When the last transport error or 5xx reply came in. */
  function LastFailure(log: seq<Event>): real {
    if log == [] then 0.0
    else
      var n := |log| - 1;
      if Transient(log[n].reply) then log[n].at else LastFailure(log[..n])
  }

  /** The replies to one post. */
  function Replies(log: seq<Event>, p: nat): seq<Reply> {
    if log == [] then []
    else
      var n := |log| - 1;
      Replies(log[..n], p) + if log[n].post == p then [log[n].reply] else []
  }

  /** The requests that are waiting for their reply. */
  function InFlight(posts: seq<Post>): nat {
    if posts == [] then 0
    else InFlight(posts[..|posts| - 1]) + if posts[|posts| - 1].Sent? then 1 else 0
  }

  /** The breaker as the replies so far make it: HALF_OPEN only once the timeout is over. */
  predicate BreakerOk(cfg: Settings, b: Breaker, now: real, log: seq<Event>) {
    && b.failures == FailuresSince(log)
    && b.lastFailure == LastFailure(log) <= now
    && (cfg.wiring.AsMeant? ==> (b.state.Closed? <==> b.failures < cfg.threshold))
    && (cfg.wiring.AsWritten? ==> b.state.Closed?)
    && (b.state.HalfOpen? ==> now - b.lastFailure >= cfg.timeout as real)
  }

  predicate AllTransient(replies: seq<Reply>) {
    forall r <- replies :: Transient(r)
  }

  /**
   The end of a post as its replies have it: without any, the circuit was open; otherwise the last one decides,
   and those before it were transient.
   */
  predicate EndsAs(exit: Exit, replies: seq<Reply>, attempts: nat) {
    if replies == [] then exit == CircuitOpenError
    else
      var n := |replies| - 1;
      && AllTransient(replies[..n])
      && n < attempts
      && match replies[n]
         case Success => exit == Response
         case ClientError => exit == DarajaError
         case Unforeseen => exit == OtherError
         case _ => exit == RetryError && |replies| == attempts
  }

  predicate PostOk(cfg: Settings, p: Post, replies: seq<Reply>) {
    match p
    case Ready(used) => used == |replies| < cfg.attempts && AllTransient(replies)
    case Sent(used) => used == |replies| + 1 <= cfg.attempts && AllTransient(replies)
    case Finished(exit) => EndsAs(exit, replies, cfg.attempts)
  }

  ghost predicate PostsOk(cfg: Settings, posts: seq<Post>, log: seq<Event>) {
    && (forall e <- log :: e.post < |posts|)
    && (forall p :: 0 <= p < |posts| ==> PostOk(cfg, posts[p], Replies(log, p)))
  }

  ghost predicate Consistent(cfg: Settings, s: State) {
    && BreakerOk(cfg, s.breaker, s.now, s.log)
    && PostsOk(cfg, s.posts, s.log)
    && s.started == |s.log| + InFlight(s.posts)
  }

  lemma CheckKeepsBreaker(cfg: Settings, b: Breaker, now: real, log: seq<Event>)
    requires BreakerOk(cfg, b, now, log) && CheckCircuit(cfg, b, now).Admitted?
    ensures BreakerOk(cfg, CheckCircuit(cfg, b, now).breaker, now, log)
  {
    hide FailuresSince, LastFailure;
  }

  lemma AbsorbKeepsBreaker(cfg: Settings, b: Breaker, now: real, log: seq<Event>, p: nat, reply: Reply)
    requires Sane(cfg) && BreakerOk(cfg, b, now, log)
    ensures BreakerOk(cfg, Absorb(cfg, b, reply, now), now, log + [Answered(p, reply, now)])
  {
    assert (log + [Answered(p, reply, now)])[..|log|] == log;
  }

  lemma {:induction false} NoReplies(log: seq<Event>, p: nat)
    requires forall e <- log :: e.post != p
    ensures Replies(log, p) == []
  {
    if log != [] {
      assert log[|log| - 1] in log;
      NoReplies(log[..|log| - 1], p);
    }
  }

  lemma RepliesAfter(log: seq<Event>, e: Event, p: nat)
    ensures Replies(log + [e], p) == if e.post == p then Replies(log, p) + [e.reply] else Replies(log, p)
  {
    assert (log + [e])[..|log|] == log;
  }

  lemma {:induction false} InFlightAfterUpdate(posts: seq<Post>, i: nat, p: Post)
    requires i < |posts|
    ensures InFlight(posts[i := p]) + (if posts[i].Sent? then 1 else 0) == InFlight(posts) + if p.Sent? then 1 else 0
    decreases |posts|
  {
    var n := |posts| - 1;
    if i < n {
      InFlightAfterUpdate(posts[..n], i, p);
      assert posts[i := p][..n] == posts[..n][i := p];
    } else {
      assert posts[i := p][..n] == posts[..n];
    }
  }

  lemma BeginKeepsPosts(cfg: Settings, posts: seq<Post>, log: seq<Event>, p: Post)
    requires PostsOk(cfg, posts, log) && PostOk(cfg, p, []) && !p.Sent?
    ensures PostsOk(cfg, posts + [p], log) && InFlight(posts + [p]) == InFlight(posts)
  {
    hide PostOk;
    NoReplies(log, |posts|);
    assert (posts + [p])[..|posts|] == posts;
  }

  lemma RequestKeepsPosts(cfg: Settings, posts: seq<Post>, log: seq<Event>, i: nat)
    requires PostsOk(cfg, posts, log) && i < |posts| && posts[i].Ready?
    ensures PostsOk(cfg, posts[i := Sent(posts[i].used + 1)], log)
  {
  }

  lemma AnswerKeepsPosts(cfg: Settings, posts: seq<Post>, log: seq<Event>, i: nat, e: Event)
    requires PostsOk(cfg, posts, log) && i < |posts| && posts[i].Sent? && e.post == i
    ensures PostsOk(cfg, posts[i := Proceed(cfg, posts[i].used, e.reply)], log + [e])
  {
    var posts' := posts[i := Proceed(cfg, posts[i].used, e.reply)];
    hide Replies, Proceed;
    forall p | 0 <= p < |posts'|
      ensures PostOk(cfg, posts'[p], Replies(log + [e], p))
    {
      RepliesAfter(log, e, p);
      if p == i {
        OneMoreReply(cfg, posts[i].used, Replies(log, i), e.reply);
      }
    }
  }

  lemma OneMoreReply(cfg: Settings, used: nat, replies: seq<Reply>, reply: Reply)
    requires PostOk(cfg, Sent(used), replies)
    ensures PostOk(cfg, Proceed(cfg, used, reply), replies + [reply])
  {
    assert (replies + [reply])[..|replies|] == replies;
  }

  lemma NextConsistent(cfg: Settings, s: State, l: Label)
    requires Sane(cfg) && Consistent(cfg, s)
    ensures Consistent(cfg, Next(cfg, s, l))
  {
    hide CheckCircuit, Absorb, FailuresSince, LastFailure, PostsOk, InFlight, Proceed;
    match l {
      case Tick(_) =>
      case Begin =>
        BeginKeepsPosts(cfg, s.posts, s.log, if CheckCircuit(cfg, s.breaker, s.now).Admitted? then Ready(0)
                                             else Finished(CircuitOpenError));
        if CheckCircuit(cfg, s.breaker, s.now).Admitted? {
          CheckKeepsBreaker(cfg, s.breaker, s.now, s.log);
        }
      case Request(i) =>
        if i < |s.posts| && s.posts[i].Ready? {
          RequestKeepsPosts(cfg, s.posts, s.log, i);
          InFlightAfterUpdate(s.posts, i, Sent(s.posts[i].used + 1));
        }
      case Answer(i, reply) =>
        if i < |s.posts| && s.posts[i].Sent? {
          AnswerKeepsPosts(cfg, s.posts, s.log, i, Answered(i, reply, s.now));
          InFlightAfterUpdate(s.posts, i, Proceed(cfg, s.posts[i].used, reply));
          NotSent(cfg, s.posts[i].used, reply);
          hide BreakerOk;
          AbsorbKeepsBreaker(cfg, s.breaker, s.now, s.log, i, reply);
        }
    }
  }

  lemma NotSent(cfg: Settings, used: nat, reply: Reply)
    ensures !Proceed(cfg, used, reply).Sent?
  {
  }

  /**
   For every interleaving of posts: as meant, the circuit is CLOSED exactly when the failures since the
   last success are below the threshold; as written it is always CLOSED, whatever fails. Either way the
   counter is transport errors plus twice the 5xx replies since the last success, and the time beside it is
   that of the last of them.
   */
  lemma {:induction false} ClosedIffBelowThreshold(cfg: Settings, ls: seq<Label>)
    requires Sane(cfg)
    ensures
      var s := Run(cfg, Initial(), ls);
      && s.breaker.failures == FailuresSince(s.log) && s.breaker.lastFailure == LastFailure(s.log)
      && (s.breaker.state.Closed? <==> cfg.wiring.AsWritten? || FailuresSince(s.log) < cfg.threshold)
    ensures Consistent(cfg, Run(cfg, Initial(), ls))
  {
    hide Next, Consistent;
    if ls == [] {
      InitialConsistent(cfg);
    } else {
      ClosedIffBelowThreshold(cfg, ls[..|ls| - 1]);
      NextConsistent(cfg, Run(cfg, Initial(), ls[..|ls| - 1]), ls[|ls| - 1]);
    }
    ConsistentBreaker(cfg, Run(cfg, Initial(), ls));
  }

  lemma InitialConsistent(cfg: Settings)
    requires Sane(cfg)
    ensures Consistent(cfg, Initial())
  {
  }

  lemma ConsistentBreaker(cfg: Settings, s: State)
    requires Consistent(cfg, s)
    ensures BreakerOk(cfg, s.breaker, s.now, s.log)
  {
  }

  /**
   In every run, after any wait without a reply: a post that begins is refused if and only if, as meant, the failures
   since the last success have reached the threshold and the last of them is less than the timeout ago. Otherwise it
   is admitted.
   */
  lemma RefusedIff(cfg: Settings, ls: seq<Label>, wait: real)
    requires Sane(cfg) && wait >= 0.0
    ensures
      var s := Run(cfg, Initial(), ls);
      var refused := cfg.wiring.AsMeant? && FailuresSince(s.log) >= cfg.threshold &&
                     s.now + wait - LastFailure(s.log) < cfg.timeout as real;
      Next(cfg, Next(cfg, s, Tick(wait)), Begin).posts
        == s.posts + [if refused then Finished(CircuitOpenError) else Ready(0)]
  {
    ClosedIffBelowThreshold(cfg, ls);
    ConsistentBreaker(cfg, Run(cfg, Initial(), ls));
    hide Run, FailuresSince, LastFailure;
  }

  /**
   In every run a post ends as its own replies have it: with the response if the last one is a success, with a
   DarajaError if it is a client error, with a RetryError if all the attempts failed in transit. It is answered at
   most as often as there are attempts, never goes on after a reply that is not transient, and never raises
   DarajaTimeoutError, the error its callers are told to expect when retries run out. As many requests were
   started as have been answered or are in flight.
   */
  lemma PostEndsAsAnswered(cfg: Settings, ls: seq<Label>, p: nat)
    requires Sane(cfg) && p < |Run(cfg, Initial(), ls).posts|
    ensures
      var s := Run(cfg, Initial(), ls);
      && (match s.posts[p]
          case Ready(used) => used == |Replies(s.log, p)| < cfg.attempts && AllTransient(Replies(s.log, p))
          case Sent(used) => used == |Replies(s.log, p)| + 1 <= cfg.attempts && AllTransient(Replies(s.log, p))
          case Finished(exit) => EndsAs(exit, Replies(s.log, p), cfg.attempts) && exit != DarajaTimeoutError)
      && s.started == |s.log| + InFlight(s.posts)
  {
    ClosedIffBelowThreshold(cfg, ls);
    assert PostOk(cfg, Run(cfg, Initial(), ls).posts[p], Replies(Run(cfg, Initial(), ls).log, p));
  }

  /** `_on_failure` without its HALF_OPEN disjunct. */
  function OnFailureByCount(cfg: Settings, b: Breaker, now: real): Breaker {
    var b1 := b.(failures := b.failures + 1, lastFailure := now);
    if b1.failures >= cfg.threshold then b1.(state := Open) else b1
  }

  /** In every reachable state the HALF_OPEN disjunct decides nothing. */
  lemma HalfOpenTestIsRedundant(cfg: Settings, ls: seq<Label>, now: real)
    requires Sane(cfg) && cfg.wiring.AsMeant?
    ensures
      var b := Run(cfg, Initial(), ls).breaker;
      OnFailure(cfg, b, now) == OnFailureByCount(cfg, b, now)
  {
    ClosedIffBelowThreshold(cfg, ls);
  }

  /** As written, enough failures leave the circuit closed: a post is admitted after any number of them. */
  lemma NeverOpensAsWritten(cfg: Settings, ls: seq<Label>)
    requires Sane(cfg) && cfg.wiring.AsWritten?
    ensures
      var s := Run(cfg, Initial(), ls);
      var s' := Next(cfg, s, Begin);
      s'.posts == s.posts + [Ready(0)] && s'.breaker == s.breaker
  {
    ClosedIffBelowThreshold(cfg, ls);
  }

  // ----- How much still goes out while the circuit is open ----------------------------------------

  /** The attempts a post may still start. */
  function Unused(cfg: Settings, p: Post): nat {
    match p
    case Ready(used) => if used < cfg.attempts then cfg.attempts - used else 0
    case Sent(used) => if used < cfg.attempts then cfg.attempts - used else 0
    case Finished(_) => 0
  }

  function Budget(cfg: Settings, posts: seq<Post>): nat {
    if posts == [] then 0 else Budget(cfg, posts[..|posts| - 1]) + Unused(cfg, posts[|posts| - 1])
  }

  lemma {:induction false} BudgetAfterUpdate(cfg: Settings, posts: seq<Post>, i: nat, p: Post)
    requires i < |posts|
    ensures Budget(cfg, posts[i := p]) + Unused(cfg, posts[i]) == Budget(cfg, posts) + Unused(cfg, p)
    decreases |posts|
  {
    var n := |posts| - 1;
    if i < n {
      BudgetAfterUpdate(cfg, posts[..n], i, p);
      assert posts[i := p][..n] == posts[..n][i := p];
    } else {
      assert posts[i := p][..n] == posts[..n];
    }
  }

  ghost predicate StaysOpen(cfg: Settings, s: State, ls: seq<Label>) {
    forall n :: 0 <= n <= |ls| ==> Run(cfg, s, ls[..n]).breaker.state.Open?
  }

  /**
   From the moment the circuit opens until a timeout or an in-flight success ends the OPEN state, the
   requests started are paid for by the unused attempts of posts already in flight.
   */
  lemma {:induction false} OpenCircuitDrains(cfg: Settings, s: State, ls: seq<Label>)
    requires Sane(cfg) && StaysOpen(cfg, s, ls)
    ensures
      var s' := Run(cfg, s, ls);
      s'.started - s.started <= Budget(cfg, s.posts) - Budget(cfg, s'.posts)
    decreases |ls|
  {
    if ls != [] {
      var n := |ls| - 1;
      assert StaysOpen(cfg, s, ls[..n]) by {
        forall k | 0 <= k <= n
          ensures Run(cfg, s, ls[..n][..k]).breaker.state.Open?
        {
          assert ls[..n][..k] == ls[..k];
        }
      }
      OpenCircuitDrains(cfg, s, ls[..n]);
      assert ls[..|ls|] == ls;
      OpenStepDrains(cfg, Run(cfg, s, ls[..n]), ls[n]);
    }
  }

  lemma ReplySpendsNothing(cfg: Settings, used: nat, reply: Reply)
    ensures Unused(cfg, Proceed(cfg, used, reply)) <= Unused(cfg, Sent(used))
  {
  }

  /** A check that finds the circuit open either refuses or leaves it half open. */
  lemma OpenAdmitsHalfOpen(cfg: Settings, b: Breaker, now: real)
    requires b.state.Open?
    ensures CheckCircuit(cfg, b, now).Admitted? ==> CheckCircuit(cfg, b, now).breaker.state.HalfOpen?
  {
  }

  lemma BudgetAfterPush(cfg: Settings, posts: seq<Post>, p: Post)
    ensures Budget(cfg, posts + [p]) == Budget(cfg, posts) + Unused(cfg, p)
  {
    assert (posts + [p])[..|posts|] == posts;
  }

  lemma OpenStepDrains(cfg: Settings, s: State, l: Label)
    requires s.breaker.state.Open? && Next(cfg, s, l).breaker.state.Open?
    ensures
      var s' := Next(cfg, s, l);
      s'.started - s.started <= Budget(cfg, s.posts) - Budget(cfg, s'.posts)
  {
    hide Budget, CheckCircuit, Absorb, Proceed;
    match l {
      case Tick(_) =>
      case Begin =>
        OpenAdmitsHalfOpen(cfg, s.breaker, s.now);
        BudgetAfterPush(cfg, s.posts, Finished(CircuitOpenError));
      case Request(p) =>
        if p < |s.posts| && s.posts[p].Ready? && s.posts[p].used < cfg.attempts {
          BudgetAfterUpdate(cfg, s.posts, p, Sent(s.posts[p].used + 1));
        }
      case Answer(p, reply) =>
        if p < |s.posts| && s.posts[p].Sent? {
          ReplySpendsNothing(cfg, s.posts[p].used, reply);
          BudgetAfterUpdate(cfg, s.posts, p, Proceed(cfg, s.posts[p].used, reply));
        }
    }
  }

  // ----- Retry-After of an open circuit -----------------------------------------------------------

  /**
   The advertised wait is a whole number between 0 and the timeout; one second more always suffices if
   no failure intervenes, and the advertised wait itself suffices exactly when nothing was rounded off.
   */
  lemma RetryAfterSuffices(cfg: Settings, ls: seq<Label>, wait: real)
    requires Sane(cfg)
    ensures
      var s := Run(cfg, Initial(), ls);
      CheckCircuit(cfg, s.breaker, s.now).Refused? ==>
        var r := CheckCircuit(cfg, s.breaker, s.now).retryAfter;
        && 0 <= r <= cfg.timeout
        && (wait >= (r + 1) as real ==> CheckCircuit(cfg, s.breaker, s.now + wait).Admitted?)
        && (CheckCircuit(cfg, s.breaker, s.now + r as real).Admitted?
            <==> s.breaker.lastFailure + cfg.timeout as real == s.now + r as real)
  {
    ClosedIffBelowThreshold(cfg, ls);
  }

  // ----- The client object, under interference ----------------------------------------------------

  lemma RunExtends(cfg: Settings, s: State, ls: seq<Label>, extended: seq<Label>, l: Label)
    requires extended == ls + [l]
    ensures Run(cfg, s, extended) == Next(cfg, Run(cfg, s, ls), l)
  {
    assert extended[..|ls|] == ls;
  }

  predicate Names(l: Label, p: nat) {
    (l.Request? || l.Answer?) && l.post == p
  }

  /** A post moves by its own labels only. */
  lemma NextLeaves(cfg: Settings, s: State, l: Label, p: nat)
    requires p < |s.posts| && !Names(l, p)
    ensures p < |Next(cfg, s, l).posts| && Next(cfg, s, l).posts[p] == s.posts[p]
    ensures Replies(Next(cfg, s, l).log, p) == Replies(s.log, p)
  {
    if l.Answer? {
      RepliesAfter(s.log, Answered(l.post, l.reply, s.now), p);
    }
  }

  /** The one client of a process, the posts that run in it, and the steps they took so far. */
  class DarajaClient {
    const cfg: Settings
    var state: CircuitState
    var failureCount: nat
    var lastFailureTime: real
    var posts: seq<Post>
    var now: real
    var started: nat
    var log: seq<Event>
    var history: seq<Label>

    function Contents(): Breaker
      reads this
    {
      Breaker(state, failureCount, lastFailureTime)
    }

    function Whole(): State
      reads this
    {
      State(Contents(), posts, now, started, log)
    }

    ghost predicate Valid()
      reads this
    {
      Sane(cfg) && Whole() == Run(cfg, Initial(), history)
    }

    constructor (cfg: Settings)
      requires Sane(cfg)
      ensures Valid() && this.cfg == cfg && history == []
    {
      this.cfg, state, failureCount, lastFailureTime := cfg, Closed, 0, 0.0;
      posts, now, started, log, history := [], 0.0, 0, [], [];
    }

    method Check() returns (refused: Option<int>)
      modifies this`state
      ensures match CheckCircuit(cfg, old(Contents()), now)
              case Admitted(b) => refused == None && Contents() == b
              case Refused(r) => refused == Some(r) && Contents() == old(Contents())
    {
      if state == Closed {
        return None;
      }
      if state == Open {
        var elapsed := now - lastFailureTime;
        if elapsed >= cfg.timeout as real {
          state := HalfOpen;
        } else {
          return Some(Truncate(cfg.timeout as real - elapsed));
        }
      }
      return None;
    }

    method RecordSuccess()
      modifies this`failureCount, this`state
      ensures Contents() == OnSuccess(old(Contents()))
    {
      failureCount := 0;
      state := Closed;
    }

    method RecordFailure()
      modifies this`failureCount, this`lastFailureTime, this`state
      ensures Contents() == OnFailure(cfg, old(Contents()), now)
    {
      failureCount := failureCount + 1;
      lastFailureTime := now;
      if failureCount >= cfg.threshold || state == HalfOpen {
        var dropped := state == Open; // the comparison of line 127: its value is dropped
        if cfg.wiring.AsMeant? {
          state := Open;
        }
      }
    }

    /** Records what a post just did to the breaker: it must be a step of the transition system. */
    method Record(l: Label)
      requires
        var before := Run(cfg, Initial(), history);
        var after := Next(cfg, before, l);
        Sane(cfg) && Whole().(breaker := before.breaker) == before && Contents() == after.breaker && now == after.now
      modifies this`posts, this`started, this`log, this`history
      ensures Valid() && history == old(history) + [l]
      ensures posts == Next(cfg, Run(cfg, Initial(), old(history)), l).posts
      ensures log == Next(cfg, Run(cfg, Initial(), old(history)), l).log
    {
      hide Run, Next;
      RunExtends(cfg, Initial(), history, history + [l], l);
      var after := Next(cfg, Run(cfg, Initial(), history), l);
      posts, started, log := after.posts, after.started, after.log;
      history := history + [l];
    }

    /** Any number of steps of the other posts and of the clock; new posts may begin. */
    method Await(me: nat)
      requires Valid() && me < |posts|
      modifies this
      ensures Valid() && me < |posts| && posts[me] == old(posts)[me] && old(history) <= history
      ensures Replies(log, me) == old(Replies(log, me))
    {
      hide Next, Run, Replies;
      var others: seq<Label> := *;
      for i := 0 to |others|
        invariant Valid() && me < |posts| && posts[me] == old(posts)[me] && old(history) <= history
        invariant Replies(log, me) == old(Replies(log, me))
      {
        if !Names(others[i], me) {
          NextLeaves(cfg, Whole(), others[i], me);
          RunExtends(cfg, Initial(), history, history + [others[i]], others[i]);
          var s := Next(cfg, Whole(), others[i]);
          state, failureCount, lastFailureTime := s.breaker.state, s.breaker.failures, s.breaker.lastFailure;
          posts, now, started, log := s.posts, s.now, s.started, s.log;
          history := history + [others[i]];
        }
      }
    }

    /** One attempt: a request goes out, and its reply is counted; a 5xx twice. */
    method AttemptOnce(me: nat, used: nat) returns (reply: Reply)
      requires Valid() && me < |posts| && posts[me] == Ready(used) && used < cfg.attempts
      modifies this
      ensures Valid() && me < |posts| && old(history) <= history
      ensures posts[me] == Proceed(cfg, used + 1, reply)
      ensures Replies(log, me) == old(Replies(log, me)) + [reply]
      ensures |history| > |old(history)| && history[|history| - 1] == Answer(me, reply)
    {
      hide Run, Replies;
      Record(Request(me));
      Await(me);
      reply := *;
      match reply {
        case Success =>
          RecordSuccess();
        case TransportError =>
          RecordFailure();
        case ServerError =>
          RecordFailure();
          RecordFailure();
        case _ =>
      }
      RepliesAfter(log, Answered(me, reply, now), me);
      Record(Answer(me, reply));
    }

    /**
     `post`, with every other post free to move at every await. The circuit is checked once, at the start;
     then at most the configured number of requests goes out, whatever becomes of the circuit. The replies it got
     decide how it ends: when all of them fail in transit it raises tenacity's RetryError, never
     DarajaTimeoutError.
     */
    method Post() returns (exit: Exit, me: nat, replies: seq<Reply>)
      requires Valid()
      modifies this
      ensures Valid() && me < |posts| && old(history) <= history && posts[me] == Finished(exit)
      ensures replies == Replies(log, me) && |replies| <= cfg.attempts
      ensures exit == CircuitOpenError <==> replies == []
      ensures replies == [] <==>
                cfg.wiring.AsMeant? && FailuresSince(old(log)) >= cfg.threshold &&
                old(now) - LastFailure(old(log)) < cfg.timeout as real
      ensures exit == Response <==> replies != [] && replies[|replies| - 1] == Success
      ensures exit == DarajaError <==> replies != [] && replies[|replies| - 1] == ClientError
      ensures exit == OtherError <==> replies != [] && replies[|replies| - 1] == Unforeseen
      ensures exit == RetryError <==> |replies| == cfg.attempts && AllTransient(replies)
      ensures replies != [] ==> AllTransient(replies[..|replies| - 1])
      ensures exit != DarajaTimeoutError
    {
      RefusedIff(cfg, history, 0.0);
      NobodyAnswered();
      hide Run, Replies, Consistent, FailuresSince, LastFailure;
      me, replies := |posts|, [];
      var refused := Check();
      Record(Begin);
      if refused.Some? {
        return CircuitOpenError, me, replies;
      }
      while true
        invariant Valid() && me < |posts| && old(history) <= history
        invariant |replies| < cfg.attempts && posts[me] == Ready(|replies|)
        invariant replies == Replies(log, me) && AllTransient(replies)
        decreases cfg.attempts - |replies|
      {
        Await(me);
        var reply := AttemptOnce(me, |replies|);
        assert (replies + [reply])[..|replies|] == replies;
        replies := replies + [reply];
        assert replies[|replies| - 1] in replies;
        match reply {
          case Success =>
            return Response, me, replies;
          case ClientError =>
            return DarajaError, me, replies;
          case Unforeseen =>
            return OtherError, me, replies;
          case _ =>
            if |replies| == cfg.attempts {
              return RetryError, me, replies;
            }
        }
      }
    }

    /** A post that begins next has no replies yet. */
    lemma NobodyAnswered()
      requires Valid()
      ensures Replies(log, |posts|) == []
    {
      ClosedIffBelowThreshold(cfg, history);
      NoReplies(log, |posts|);
    }
  }
}
