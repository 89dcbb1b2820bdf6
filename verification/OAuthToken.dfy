/**
 The OAuth token cache of app/daraja/auth.py: any number of processes share one cached token and one
 lock in Redis. Every Redis command may also fail, before or after it took effect.

 A run is any sequence of labels: `Next` is total, and a label that does not apply changes nothing.
 `AsWritten` deletes the cache key in the `finally` block of app/daraja/auth.py:81; `AsMeant` deletes
 the lock key.
 */
module OAuthToken {
  import opened Basics

  datatype Wiring = AsWritten | AsMeant

  datatype Settings = Settings(margin: nat, lockTtlMs: nat, wiring: Wiring)

  const POLL_INTERVAL := 0.25

  /** A token as Daraja issued it; `expiresIn` as in section 5.1 of RFC 6749. */
  datatype Token = Token(issuedAt: real, expiresIn: int)

  datatype Entry = Entry(token: Token, storedAt: real, writer: nat)

  function CacheTtl(cfg: Settings, expiresIn: int): int {
    if expiresIn - cfg.margin > 60 then expiresIn - cfg.margin else 60
  }

  predicate Visible(cfg: Settings, cache: Option<Entry>, now: real) {
    cache.Some? && now < cache.value.storedAt + CacheTtl(cfg, cache.value.token.expiresIn) as real
  }

  predicate Held(lock: Option<real>, now: real) {
    lock.Some? && now < lock.value
  }

  function LockSeconds(cfg: Settings): real {
    cfg.lockTtlMs as real / 1000.0
  }

  function MaxPolls(cfg: Settings): nat {
    cfg.lockTtlMs / 250
  }

  datatype Result = Served(entry: Entry, at: real) | Fetched(token: Token, holder: bool) | Raised

  /** Where one call of get_token stands; `Releasing` is the `finally` block of a lock holder. */
  datatype Process =
    | ReadCache
    | TakeLock
    | Polling(polls: nat, wake: real)
    | Fetching(holder: bool)
    | Storing(holder: bool, token: Token)
    | Releasing(result: Result)
    | Finished(result: Result)

  datatype State = State(cache: Option<Entry>, lock: Option<real>, procs: seq<Process>, now: real)

  /**
   What the environment answers: Redis up, down, or its reply lost; Daraja issuing or refusing a token.
   `Text` is Redis up behind a client that decodes replies itself, as app/tasks/_infra.py:64 configures it:
   calling `decode` on what it read raises.
   */
  datatype Answer = Up | Text | Down | Lost | Issue(expiresIn: int) | Refuse

  datatype Label = Tick(seconds: real) | Begin | Act(proc: nat, answer: Answer) | Crash(proc: nat) | Evict

  function Initial(): State {
    State(None, None, [], 0.0)
  }

  function Next(cfg: Settings, s: State, l: Label): State {
    match l
    case Tick(seconds) => if seconds >= 0.0 then s.(now := s.now + seconds) else s
    case Begin => s.(procs := s.procs + [ReadCache])
    case Act(p, a) => if p < |s.procs| then Move(cfg, s, p, a) else s
    case Crash(p) => if p < |s.procs| && !s.procs[p].Finished? then Goto(s, p, Finished(Raised)) else s
    case Evict => s.(cache := None)
  }

  function Goto(s: State, p: nat, at: Process): State
    requires p < |s.procs|
  {
    s.(procs := s.procs[p := at])
  }

  function Move(cfg: Settings, s: State, p: nat, a: Answer): State
    requires p < |s.procs|
  {
    match s.procs[p]
    case ReadCache =>
      if a.Up? then
        Goto(s, p, if Visible(cfg, s.cache, s.now) then Finished(Served(s.cache.value, s.now)) else TakeLock)
      else if a.Text? then Goto(s, p, if Visible(cfg, s.cache, s.now) then Finished(Raised) else TakeLock)
      else if a.Down? then Goto(s, p, Fetching(false))
      else s
    case TakeLock =>
      if a.Up? then
        if Held(s.lock, s.now) then
          Goto(s, p, if MaxPolls(cfg) == 0 then Fetching(false) else Polling(0, s.now + POLL_INTERVAL))
        else Goto(s.(lock := Some(s.now + LockSeconds(cfg))), p, Fetching(true))
      else if a.Down? then Goto(s, p, Finished(Raised))
      else if a.Lost? then
        Goto(if Held(s.lock, s.now) then s else s.(lock := Some(s.now + LockSeconds(cfg))), p, Finished(Raised))
      else s
    case Polling(polls, wake) =>
      if s.now < wake || a.Issue? || a.Refuse? then s
      else if a.Up? && Visible(cfg, s.cache, s.now) then Goto(s, p, Finished(Served(s.cache.value, s.now)))
      else Goto(s, p, if polls + 1 >= MaxPolls(cfg) then Fetching(false)
                      else Polling(polls + 1, s.now + POLL_INTERVAL))
    case Fetching(holder) =>
      if a.Issue? then Goto(s, p, Storing(holder, Token(s.now, a.expiresIn)))
      else if a.Refuse? then Goto(s, p, if holder then Releasing(Raised) else Finished(Raised))
      else s
    case Storing(holder, token) =>
      if a.Issue? || a.Refuse? || a.Text? then s
      else
        var s1 := if a.Down? then s else s.(cache := Some(Entry(token, s.now, p)));
        Goto(s1, p, if holder then Releasing(Fetched(token, true)) else Finished(Fetched(token, false)))
    case Releasing(result) =>
      if a.Issue? || a.Refuse? || a.Text? then s
      else
        var s1 := if a.Down? then s
                  else if cfg.wiring.AsWritten? then s.(cache := None) else s.(lock := None);
        Goto(s1, p, Finished(if a.Up? then result else Raised))
    case Finished(_) => s
  }

  function Run(cfg: Settings, ls: seq<Label>): State {
    if ls == [] then Initial() else Next(cfg, Run(cfg, ls[..|ls| - 1]), ls[|ls| - 1])
  }

  // ----- Every reachable state --------------------------------------------------------------------

  predicate EntryOk(cfg: Settings, s: State, e: Entry) {
    e.token.issuedAt <= e.storedAt <= s.now && e.writer < |s.procs| && !s.procs[e.writer].ReadCache?
  }

  /** A holder that returned its token has run its `finally` block. */
  predicate ReturnedHolder(p: Process) {
    p.Finished? && p.result.Fetched? && p.result.holder
  }

  predicate ProcessOk(cfg: Settings, now: real, p: Process) {
    match p
    case Polling(polls, wake) => polls < MaxPolls(cfg)
    case Storing(_, token) => token.issuedAt <= now
    case Finished(Served(e, at)) =>
      e.token.issuedAt <= e.storedAt <= at && Visible(cfg, Some(e), at)
    case Releasing(result) => !result.Served?
    case _ => true
  }

  ghost predicate Inv(cfg: Settings, s: State) {
    && (forall p <- s.procs :: ProcessOk(cfg, s.now, p))
    && (s.cache.Some? ==> EntryOk(cfg, s, s.cache.value))
    && (s.cache.Some? && cfg.wiring.AsWritten? ==> !ReturnedHolder(s.procs[s.cache.value.writer]))
  }

  lemma MoveShape(cfg: Settings, s: State, p: nat, a: Answer)
    requires p < |s.procs|
    ensures
      var s' := Move(cfg, s, p, a);
      s'.now == s.now && |s'.procs| == |s.procs| && s'.procs == s.procs[p := s'.procs[p]]
  {
    assert s.procs[p := s.procs[p]] == s.procs;
  }

  lemma MovedProcess(cfg: Settings, s: State, p: nat, a: Answer)
    requires p < |s.procs| && ProcessOk(cfg, s.now, s.procs[p]) && (s.cache.Some? ==> EntryOk(cfg, s, s.cache.value))
    ensures p < |Move(cfg, s, p, a).procs| && ProcessOk(cfg, s.now, Move(cfg, s, p, a).procs[p])
  {
  }

  /** A cached entry stays, goes, or is that of the process that moves. */
  lemma MovedCache(cfg: Settings, s: State, p: nat, a: Answer)
    requires p < |s.procs| && ProcessOk(cfg, s.now, s.procs[p])
    ensures
      var s' := Move(cfg, s, p, a);
      |s'.procs| == |s.procs| &&
      (s'.cache.Some? && s'.cache != s.cache ==>
         EntryOk(cfg, s', s'.cache.value) && s'.cache.value.writer == p && !ReturnedHolder(s'.procs[p]))
    ensures
      var s' := Move(cfg, s, p, a);
      (s'.procs[p].ReadCache? ==> s.procs[p].ReadCache?) &&
      (cfg.wiring.AsWritten? && ReturnedHolder(s'.procs[p]) && !ReturnedHolder(s.procs[p]) ==> s'.cache.None?)
  {
  }

  lemma MoveKeepsInv(cfg: Settings, s: State, p: nat, a: Answer)
    requires Inv(cfg, s) && p < |s.procs|
    ensures Inv(cfg, Move(cfg, s, p, a))
  {
    hide Move, ProcessOk;
    var s' := Move(cfg, s, p, a);
    assert s.procs[p] in s.procs;
    MoveShape(cfg, s, p, a);
    MovedProcess(cfg, s, p, a);
    MovedCache(cfg, s, p, a);
    forall q | q in s'.procs
      ensures ProcessOk(cfg, s'.now, q)
    {
      var i :| 0 <= i < |s'.procs| && s'.procs[i] == q;
      assert s.procs[i] in s.procs;
    }
  }

  lemma {:induction false} InvAlways(cfg: Settings, ls: seq<Label>)
    ensures Inv(cfg, Run(cfg, ls))
  {
    if ls != [] {
      var s, l := Run(cfg, ls[..|ls| - 1]), ls[|ls| - 1];
      InvAlways(cfg, ls[..|ls| - 1]);
      match l {
        case Act(p, a) =>
          if p < |s.procs| {
            MoveKeepsInv(cfg, s, p, a);
          }
        case _ =>
          forall q | q in Next(cfg, s, l).procs
            ensures ProcessOk(cfg, Next(cfg, s, l).now, q)
          {
          }
      }
    }
  }

  // ----- What a cached token is still worth -------------------------------------------------------

  /** How long the fetched token was under way before it was stored. */
  function Latency(e: Entry): real {
    e.storedAt - e.token.issuedAt
  }

  /**
   In every run, a token served from the cache has more life left than the margin less the latency of
   its fetch, provided it was issued for at least margin + 60 seconds; otherwise the floor of 60 seconds
   on the cache time takes the place of the margin.
   */
  lemma ServedTokenIsFresh(cfg: Settings, ls: seq<Label>, p: nat)
    requires p < |Run(cfg, ls).procs| && Run(cfg, ls).procs[p].Finished? && Run(cfg, ls).procs[p].result.Served?
    ensures
      var Served(e, at) := Run(cfg, ls).procs[p].result;
      var left := e.token.issuedAt + e.token.expiresIn as real - at;
      && Latency(e) >= 0.0
      && (e.token.expiresIn >= cfg.margin + 60 ==> left > cfg.margin as real - Latency(e))
      && (e.token.expiresIn < cfg.margin + 60 ==> left > e.token.expiresIn as real - 60.0 - Latency(e))
  {
    InvAlways(cfg, ls);
    var q := Run(cfg, ls).procs[p];
    assert ProcessOk(cfg, Run(cfg, ls).now, q);
  }

  /** Process `p` was served a token of lifetime `x`, stored `latency` after its issue, when it had expired. */
  predicate ServedStale(cfg: Settings, ls: seq<Label>, p: nat, x: int, latency: real) {
    var procs := Run(cfg, ls).procs;
    && p < |procs| && procs[p].Finished? && procs[p].result.Served?
    && procs[p].result.entry.token.expiresIn == x && Latency(procs[p].result.entry) == latency
    && procs[p].result.at >= procs[p].result.entry.token.issuedAt + x as real
  }

  /** The latency of its fetch exceeds what the cache time leaves of a token's life. */
  predicate OutlivedByCache(cfg: Settings, x: int, latency: real) {
    latency > cfg.margin as real || latency > x as real - 60.0
  }

  /**
   A token of a given lifetime and latency can be served after it expired, in some run, if and only if its
   latency exceeds the margin or leaves it less than the 60 seconds that it is cached at the least.
   */
  lemma ServedStaleIff(cfg: Settings, x: int, latency: real)
    ensures (exists ls, p :: ServedStale(cfg, ls, p, x, latency)) <==>
              latency >= 0.0 && OutlivedByCache(cfg, x, latency)
  {
    if ls: seq<Label>, p: nat :| ServedStale(cfg, ls, p, x, latency) {
      InvAlways(cfg, ls);
      var q := Run(cfg, ls).procs[p];
      assert ProcessOk(cfg, Run(cfg, ls).now, q);
    }
    if latency >= 0.0 && OutlivedByCache(cfg, x, latency) {
      StaleRun(cfg, x, latency);
    }
  }

  /** Process 0 stores the token late, and process 1 reads it as soon as it has expired. */
  function StaleLabels(x: int, latency: real, wait: real): seq<Label> {
    [Begin, Act(0, Down), Act(0, Issue(x)), Tick(latency), Act(0, Up), Begin, Tick(wait), Act(1, Up)]
  }

  function StaleStates(x: int, latency: real, wait: real): seq<State> {
    var e := Entry(Token(0.0, x), latency, 0);
    var storing, done, at := Storing(false, Token(0.0, x)), Finished(Fetched(Token(0.0, x), false)), latency + wait;
    [Initial(), State(None, None, [ReadCache], 0.0), State(None, None, [Fetching(false)], 0.0),
     State(None, None, [storing], 0.0), State(None, None, [storing], latency), State(Some(e), None, [done], latency),
     State(Some(e), None, [done, ReadCache], latency), State(Some(e), None, [done, ReadCache], at),
     State(Some(e), None, [done, Finished(Served(e, at))], at)]
  }

  lemma StaleSteps(cfg: Settings, x: int, latency: real, wait: real, i: nat)
    requires latency >= 0.0 && 0.0 <= wait < CacheTtl(cfg, x) as real && i < 8
    ensures
      var states := StaleStates(x, latency, wait);
      states[i + 1] == Next(cfg, states[i], StaleLabels(x, latency, wait)[i])
  {
    hide CacheTtl;
  }

  lemma StaleRun(cfg: Settings, x: int, latency: real)
    requires latency >= 0.0 && OutlivedByCache(cfg, x, latency)
    ensures exists ls, p :: ServedStale(cfg, ls, p, x, latency)
  {
    var wait := if x as real > latency then x as real - latency else 0.0;
    var ls, states := StaleLabels(x, latency, wait), StaleStates(x, latency, wait);
    assert wait < CacheTtl(cfg, x) as real;
    hide Next, Run, CacheTtl;
    forall i | 0 <= i < |ls|
      ensures states[i + 1] == Next(cfg, states[i], ls[i])
    {
      StaleSteps(cfg, x, latency, wait, i);
    }
    RunIsTrace(cfg, states, ls);
    assert ls[..8] == ls;
    assert ServedStale(cfg, ls, 1, x, latency);
  }

  /** A run given by the states it passes through. */
  lemma {:induction false} RunIsTrace(cfg: Settings, states: seq<State>, ls: seq<Label>)
    requires |states| == |ls| + 1 && states[0] == Initial()
    requires forall i :: 0 <= i < |ls| ==> states[i + 1] == Next(cfg, states[i], ls[i])
    ensures forall n :: 0 <= n <= |ls| ==> Run(cfg, ls[..n]) == states[n]
  {
    hide Next, Run;
    NothingRun(cfg);
    for n := 0 to |ls|
      invariant forall k :: 0 <= k <= n ==> Run(cfg, ls[..k]) == states[k]
    {
      RunExtends(cfg, ls[..n], ls[..n + 1], ls[n]);
    }
  }

  lemma NothingRun(cfg: Settings)
    ensures Run(cfg, []) == Initial()
  {
  }

  lemma RunExtends(cfg: Settings, ls: seq<Label>, extended: seq<Label>, l: Label)
    requires extended == ls + [l]
    ensures Run(cfg, extended) == Next(cfg, Run(cfg, ls), l)
  {
    assert extended[..|ls|] == ls;
  }

  /** A process that has finished, or that the label does not name, stays where it is. */
  lemma NextLeaves(cfg: Settings, s: State, l: Label, p: nat)
    requires p < |s.procs| && (s.procs[p].Finished? || !Names(l, p))
    ensures p < |Next(cfg, s, l).procs| && Next(cfg, s, l).procs[p] == s.procs[p]
    ensures s.now <= Next(cfg, s, l).now
  {
  }

  predicate Names(l: Label, p: nat) {
    (l.Act? || l.Crash?) && l.proc == p
  }

  // ----- Where a token comes from -----------------------------------------------------------------

  /** At position `n` of the run Daraja issues the token to process `p`. */
  predicate IssuedAt(cfg: Settings, ls: seq<Label>, n: nat, p: nat, token: Token) {
    n < |ls| && ls[n] == Act(p, Issue(token.expiresIn)) &&
    (var s := Run(cfg, ls[..n]);
     p < |s.procs| && s.procs[p].Fetching? && s.now == token.issuedAt)
  }

  /** The token that a process fetched. */
  function OwnToken(p: Process): Option<Token> {
    match p
    case Storing(_, token) => Some(token)
    case Releasing(Fetched(token, _)) => Some(token)
    case Finished(Fetched(token, _)) => Some(token)
    case _ => None
  }

  predicate IsServed(p: Process) {
    p.Finished? && p.result.Served?
  }

  ghost predicate Issued(cfg: Settings, ls: seq<Label>, p: nat, token: Token) {
    exists n :: IssuedAt(cfg, ls, n, p, token)
  }

  lemma IssuedBefore(cfg: Settings, ls: seq<Label>, p: nat, token: Token)
    requires ls != [] && Issued(cfg, ls[..|ls| - 1], p, token)
    ensures Issued(cfg, ls, p, token)
  {
    var n: nat :| IssuedAt(cfg, ls[..|ls| - 1], n, p, token);
    assert ls[..|ls| - 1][..n] == ls[..n];
    assert IssuedAt(cfg, ls, n, p, token);
  }

  lemma MoveTokens(cfg: Settings, s: State, p: nat, a: Answer)
    requires p < |s.procs| && ProcessOk(cfg, s.now, s.procs[p])
    ensures
      var s' := Move(cfg, s, p, a);
      var x := s'.procs[p];
      && (OwnToken(x).Some? && OwnToken(x) != OwnToken(s.procs[p]) ==>
            s.procs[p].Fetching? && a.Issue? && OwnToken(x).value == Token(s.now, a.expiresIn))
      && (s'.cache.Some? && s'.cache != s.cache ==>
            s'.cache.value.writer == p && OwnToken(s.procs[p]) == Some(s'.cache.value.token))
      && (IsServed(x) && x != s.procs[p] ==> s.cache == Some(x.result.entry))
  {
  }

  /**
   In every run, every token in the system is one that Daraja issued: what a process stores and returns was issued
   to itself, what is cached or served was issued to the process that stored it, at the time and for the lifetime
   that the token says.
   */
  lemma {:induction false} TokensWereIssued(cfg: Settings, ls: seq<Label>)
    ensures
      var s := Run(cfg, ls);
      && (s.cache.Some? ==> Issued(cfg, ls, s.cache.value.writer, s.cache.value.token))
      && (forall p :: 0 <= p < |s.procs| && OwnToken(s.procs[p]).Some? ==>
            Issued(cfg, ls, p, OwnToken(s.procs[p]).value))
      && (forall p :: 0 <= p < |s.procs| && IsServed(s.procs[p]) ==>
            Issued(cfg, ls, s.procs[p].result.entry.writer, s.procs[p].result.entry.token))
  {
    hide Run, Issued, IssuedAt, Move;
    if ls == [] {
      NothingRun(cfg);
    } else {
      var m := |ls| - 1;
      var s, s' := Run(cfg, ls[..m]), Run(cfg, ls);
      TokensWereIssued(cfg, ls[..m]);
      InvAlways(cfg, ls[..m]);
      RunExtends(cfg, ls[..m], ls, ls[m]);
      forall p, token | Issued(cfg, ls[..m], p, token)
        ensures Issued(cfg, ls, p, token)
      {
        IssuedBefore(cfg, ls, p, token);
      }
      if ls[m].Act? && ls[m].proc < |s.procs| {
        var q := ls[m].proc;
        MoveShape(cfg, s, q, ls[m].answer);
        MoveTokens(cfg, s, q, ls[m].answer);
        if OwnToken(s'.procs[q]).Some? && OwnToken(s'.procs[q]) != OwnToken(s.procs[q]) {
          IssuedNow(cfg, ls, q, OwnToken(s'.procs[q]).value);
        }
      }
    }
  }

  lemma IssuedNow(cfg: Settings, ls: seq<Label>, p: nat, token: Token)
    requires ls != [] && IssuedAt(cfg, ls, |ls| - 1, p, token)
    ensures Issued(cfg, ls, p, token)
  {
  }

  // ----- The lock holder's finally block ----------------------------------------------------------

  /**
   As written, in every run, a token stored by a lock holder is gone once that holder has returned: no
   read can be served it. What stays cached for its full time is a token fetched without the lock, or by a
   holder that did not return: one that crashed, or whose own deletion failed.
   */
  lemma HolderTokenIsNeverShared(cfg: Settings, ls: seq<Label>, holder: nat, reader: nat, more: seq<Label>)
    requires cfg.wiring.AsWritten? && holder < |Run(cfg, ls).procs| && ReturnedHolder(Run(cfg, ls).procs[holder])
    requires reader < |Run(cfg, ls + more).procs|
    ensures
      var s := Run(cfg, ls + more);
      var s' := Next(cfg, s, Act(reader, Up));
      s'.procs[reader] != s.procs[reader] && s'.procs[reader].Finished? && s'.procs[reader].result.Served? ==>
        s'.procs[reader].result.entry.writer != holder
  {
    ReturnedStays(cfg, ls, more, holder);
    InvAlways(cfg, ls + more);
    assert Run(cfg, ls + more).procs[reader] in Run(cfg, ls + more).procs;
  }

  lemma {:induction false} ReturnedStays(cfg: Settings, ls: seq<Label>, more: seq<Label>, p: nat)
    requires p < |Run(cfg, ls).procs| && Run(cfg, ls).procs[p].Finished?
    ensures p < |Run(cfg, ls + more).procs| && Run(cfg, ls + more).procs[p] == Run(cfg, ls).procs[p]
    decreases |more|
  {
    hide Next, Run;
    if more == [] {
      assert ls + more == ls;
    } else {
      var n := |more| - 1;
      ReturnedStays(cfg, ls, more[..n], p);
      RunExtends(cfg, ls + more[..n], ls + more, more[n]);
      NextLeaves(cfg, Run(cfg, ls + more[..n]), more[n], p);
    }
  }

  predicate NothingEvicted(ls: seq<Label>) {
    forall l <- ls :: !l.Evict?
  }

  /**
   As meant, along every run without eviction, a stored token stays until a later one replaces it. Exactly
   until its cache time is over, a read that Redis answers is served the token that is there, and a read
   through a client that returns text raises.
   */
  lemma {:induction false} StoredTokenIsShared(cfg: Settings, ls: seq<Label>, more: seq<Label>, reader: nat)
    requires cfg.wiring.AsMeant? && Run(cfg, ls).cache.Some? && NothingEvicted(more)
    ensures
      var s := Run(cfg, ls + more);
      && s.now >= Run(cfg, ls).now && s.cache.Some?
      && (s.cache == Run(cfg, ls).cache || s.cache.value.storedAt >= Run(cfg, ls).now)
      && (reader < |s.procs| && s.procs[reader].ReadCache? ==>
            (Next(cfg, s, Act(reader, Up)).procs[reader] == Finished(Served(s.cache.value, s.now))
             <==> s.now < s.cache.value.storedAt + CacheTtl(cfg, s.cache.value.token.expiresIn) as real) &&
            (Next(cfg, s, Act(reader, Text)).procs[reader] == Finished(Raised)
             <==> s.now < s.cache.value.storedAt + CacheTtl(cfg, s.cache.value.token.expiresIn) as real))
    decreases |more|
  {
    hide Run;
    if more == [] {
      assert ls + more == ls;
    } else {
      var n := |more| - 1;
      assert more == more[..n] + [more[n]];
      StoredTokenIsShared(cfg, ls, more[..n], reader);
      RunExtends(cfg, ls + more[..n], ls + more, more[n]);
    }
  }

  // ----- What a waiter gets -----------------------------------------------------------------------

  /** Process `p` asks for the token: the first read of a call, or a poll after its sleep. */
  predicate Asks(s: State, p: nat) {
    p < |s.procs| && (s.procs[p].ReadCache? || (s.procs[p].Polling? && s.procs[p].wake <= s.now))
  }

  /** At position `n` of the run, process `p` asks, is answered, and the cache is warm. */
  predicate FindsWarm(cfg: Settings, ls: seq<Label>, n: nat, p: nat) {
    n < |ls| && ls[n] == Act(p, Up) &&
    (var s := Run(cfg, ls[..n]);
     Asks(s, p) && s.cache.Some? &&
     s.now < s.cache.value.storedAt + CacheTtl(cfg, s.cache.value.token.expiresIn) as real)
  }

  /** In every run, who asks while the cache is warm is served the token that is there, and that is for good. */
  lemma FoundWarmIsServed(cfg: Settings, ls: seq<Label>, n: nat, p: nat)
    requires FindsWarm(cfg, ls, n, p)
    ensures
      var s := Run(cfg, ls[..n]);
      p < |Run(cfg, ls).procs| && Run(cfg, ls).procs[p] == Finished(Served(s.cache.value, s.now))
  {
    hide Run;
    RunExtends(cfg, ls[..n], ls[..n + 1], ls[n]);
    assert ls[..n + 1] + ls[n + 1..] == ls;
    ReturnedStays(cfg, ls[..n + 1], ls[n + 1..], p);
  }

  /** A call is served a token if and only if it asks, once, while the cache is warm and Redis answers. */
  lemma {:induction false} ServedIffFoundWarm(cfg: Settings, ls: seq<Label>, p: nat)
    requires p < |Run(cfg, ls).procs|
    ensures IsServed(Run(cfg, ls).procs[p]) <==> exists n :: FindsWarm(cfg, ls, n, p)
    decreases |ls|
  {
    hide Run;
    if n: nat :| FindsWarm(cfg, ls, n, p) {
      FoundWarmIsServed(cfg, ls, n, p);
    }
    if IsServed(Run(cfg, ls).procs[p]) {
      NothingRun(cfg);
      assert ls != [];
      var m := |ls| - 1;
      var s := Run(cfg, ls[..m]);
      RunExtends(cfg, ls[..m], ls, ls[m]);
      if ServedNow(cfg, s, ls[m], p) {
        assert FindsWarm(cfg, ls, m, p);
      } else {
        InvAlways(cfg, ls[..m]);
        NothingElseServes(cfg, s, ls[m], p);
        ServedIffFoundWarm(cfg, ls[..m], p);
        var n: nat :| FindsWarm(cfg, ls[..m], n, p);
        assert ls[..m][..n] == ls[..n];
        assert FindsWarm(cfg, ls, n, p);
      }
    }
  }

  predicate ServedNow(cfg: Settings, s: State, l: Label, p: nat) {
    l == Act(p, Up) && Asks(s, p) && Visible(cfg, s.cache, s.now)
  }

  lemma NothingElseServes(cfg: Settings, s: State, l: Label, p: nat)
    requires Inv(cfg, s) && !ServedNow(cfg, s, l, p)
    requires p < |Next(cfg, s, l).procs| && IsServed(Next(cfg, s, l).procs[p])
    ensures p < |s.procs| && IsServed(s.procs[p])
  {
    if p < |s.procs| {
      assert ProcessOk(cfg, s.now, s.procs[p]);
    }
  }

  /**
   In every run, as written and as meant, what a poll leads to: an answered one with the cache warm ends the call
   with the token; after any other the waiter sleeps a quarter of a second more, or, after as many polls as quarters
   of a second fit into the lock's time, fetches for itself.
   */
  lemma PollIsServedIff(cfg: Settings, ls: seq<Label>, n: nat, p: nat)
    requires n < |ls| && ls[n].Act? && ls[n].proc == p && ls[n].answer in {Up, Text, Down, Lost}
    requires Asks(Run(cfg, ls[..n]), p) && Run(cfg, ls[..n]).procs[p].Polling?
    ensures
      var s := Run(cfg, ls[..n]);
      && (FindsWarm(cfg, ls, n, p) ==>
            p < |Run(cfg, ls).procs| && Run(cfg, ls).procs[p] == Finished(Served(s.cache.value, s.now)))
      && (!FindsWarm(cfg, ls, n, p) ==>
            p < |Run(cfg, ls[..n + 1]).procs| &&
            Run(cfg, ls[..n + 1]).procs[p]
              == if s.procs[p].polls + 1 < cfg.lockTtlMs / 250 then Polling(s.procs[p].polls + 1, s.now + 0.25)
                 else Fetching(false))
  {
    hide Run;
    RunExtends(cfg, ls[..n], ls[..n + 1], ls[n]);
    if FindsWarm(cfg, ls, n, p) {
      FoundWarmIsServed(cfg, ls, n, p);
    }
  }

  /**
   As meant, in every run without eviction since a token was stored: a waiter whose poll is answered within the
   cache time of the token that is there then is served that token, and never fetches, whatever happens after.
   */
  lemma WaiterSharesToken(cfg: Settings, ls: seq<Label>, more: seq<Label>, waiter: nat, after: seq<Label>)
    requires cfg.wiring.AsMeant? && Run(cfg, ls).cache.Some? && NothingEvicted(more)
    requires Asks(Run(cfg, ls + more), waiter) && Run(cfg, ls + more).procs[waiter].Polling?
    ensures Run(cfg, ls + more).cache.Some?
    ensures
      var s := Run(cfg, ls + more);
      var e := s.cache.value;
      s.now < e.storedAt + CacheTtl(cfg, e.token.expiresIn) as real ==>
        var s' := Run(cfg, ls + more + [Act(waiter, Up)] + after);
        waiter < |s'.procs| && s'.procs[waiter] == Finished(Served(e, s.now)) &&
        (e == Run(cfg, ls).cache.value || e.storedAt >= Run(cfg, ls).now)
  {
    hide Run;
    StoredTokenIsShared(cfg, ls, more, waiter);
    var all := ls + more + [Act(waiter, Up)] + after;
    assert all[..|ls + more|] == ls + more;
    var e := Run(cfg, ls + more).cache.value;
    if Run(cfg, ls + more).now < e.storedAt + CacheTtl(cfg, e.token.expiresIn) as real {
      FoundWarmIsServed(cfg, all, |ls + more|, waiter);
    }
  }

  // ----- How a call ends, and what it leaves in Redis ---------------------------------------------

  /** The answer gives the call this result: a warm cache, a failed command of its own, or what Daraja says. */
  predicate Gives(cfg: Settings, s: State, p: nat, a: Answer, result: Result)
    requires p < |s.procs|
  {
    match s.procs[p]
    case ReadCache =>
      Visible(cfg, s.cache, s.now) &&
      ((a == Up && result == Served(s.cache.value, s.now)) || (a == Text && result == Raised))
    case TakeLock => a in {Down, Lost} && result == Raised
    case Polling(_, wake) =>
      wake <= s.now && a == Up && Visible(cfg, s.cache, s.now) && result == Served(s.cache.value, s.now)
    case Fetching(_) => a == Refuse && result == Raised
    case Storing(holder, token) => a in {Up, Down, Lost} && !holder && result == Fetched(token, false)
    case Releasing(fetched) => (a == Up && result == fetched) || (a in {Down, Lost} && result == Raised)
    case Finished(_) => false
  }

  /** The call ends, or will end once its `finally` block has run, with this result. */
  predicate ComesTo(p: Process, result: Result) {
    match p
    case Finished(r) => r == result
    case Releasing(r) => r == Raised && result == Raised
    case _ => false
  }

  /** What can be read off a state: the result of a call, the cached token, and how long the lock lives. */
  datatype Fact = HasResult(p: nat, result: Result) | CachedIs(entry: Entry) | LockedUntil(until: real)

  predicate Holds(s: State, f: Fact) {
    match f
    case HasResult(p, result) => p < |s.procs| && ComesTo(s.procs[p], result)
    case CachedIs(entry) => s.cache == Some(entry)
    case LockedUntil(until) => s.lock == Some(until)
  }

  /** A Redis command took effect, seen or unseen, at a step of a process. */
  predicate TookEffect(s: State, l: Label) {
    l.Act? && l.proc < |s.procs| && l.answer in {Up, Lost}
  }

  predicate TakesLock(s: State, l: Label) {
    TookEffect(s, l) && s.procs[l.proc].TakeLock? && !(s.lock.Some? && s.now < s.lock.value)
  }

  /**
   The label brings it about: an answer gives the result, or a crash takes it away; a token is cached by who stores
   it; the lock is taken for its time by who finds it free.
   */
  predicate Makes(cfg: Settings, s: State, l: Label, f: Fact) {
    match f
    case HasResult(p, result) =>
      p < |s.procs| &&
      ((l.Act? && l.proc == p && Gives(cfg, s, p, l.answer, result)) ||
       (l == Crash(p) && !s.procs[p].Finished? && result == Raised))
    case CachedIs(entry) =>
      TookEffect(s, l) && s.procs[l.proc].Storing? && entry == Entry(s.procs[l.proc].token, s.now, l.proc)
    case LockedUntil(until) => TakesLock(s, l) && until == s.now + cfg.lockTtlMs as real / 1000.0
  }

  /**
   The label undoes it: a cached token goes with the next one, by eviction, and, as written, by any `finally` block;
   the lock by the next one who takes it and, as meant, by any `finally` block. A result is never undone.
   */
  predicate Breaks(cfg: Settings, s: State, l: Label, f: Fact) {
    match f
    case HasResult(_, _) => false
    case CachedIs(_) =>
      l == Evict ||
      (TookEffect(s, l) && (s.procs[l.proc].Storing? || (s.procs[l.proc].Releasing? && cfg.wiring == AsWritten)))
    case LockedUntil(_) =>
      TakesLock(s, l) || (TookEffect(s, l) && s.procs[l.proc].Releasing? && cfg.wiring == AsMeant)
  }

  predicate MadeAt(cfg: Settings, ls: seq<Label>, n: nat, f: Fact) {
    n < |ls| && Makes(cfg, Run(cfg, ls[..n]), ls[n], f)
  }

  ghost predicate UnbrokenSince(cfg: Settings, ls: seq<Label>, n: nat, f: Fact) {
    forall k :: n < k < |ls| ==> !BrokenAt(cfg, ls, k, f)
  }

  predicate BrokenAt(cfg: Settings, ls: seq<Label>, n: nat, f: Fact) {
    n < |ls| && Breaks(cfg, Run(cfg, ls[..n]), ls[n], f)
  }

  /** It was made at some position of the run, and not broken since. */
  ghost predicate Stands(cfg: Settings, ls: seq<Label>, f: Fact) {
    exists n :: MadeAt(cfg, ls, n, f) && UnbrokenSince(cfg, ls, n, f)
  }

  lemma ResultStep(cfg: Settings, s: State, l: Label, f: Fact)
    requires f.HasResult?
    ensures Holds(Next(cfg, s, l), f) <==> Makes(cfg, s, l, f) || (Holds(s, f) && !Breaks(cfg, s, l, f))
  {
    hide Visible, Held, LockSeconds, MaxPolls, TakesLock, TookEffect;
  }

  lemma RedisStep(cfg: Settings, s: State, l: Label, f: Fact)
    requires f.CachedIs? || f.LockedUntil?
    ensures Holds(Next(cfg, s, l), f) <==> Makes(cfg, s, l, f) || (Holds(s, f) && !Breaks(cfg, s, l, f))
  {
    hide Visible, MaxPolls, Gives, ComesTo;
  }

  lemma FactStep(cfg: Settings, s: State, l: Label, f: Fact)
    ensures Holds(Next(cfg, s, l), f) <==> Makes(cfg, s, l, f) || (Holds(s, f) && !Breaks(cfg, s, l, f))
  {
    hide Holds, Next, Makes, Breaks;
    if f.HasResult? {
      ResultStep(cfg, s, l, f);
    } else {
      RedisStep(cfg, s, l, f);
    }
  }

  lemma StandsStep(cfg: Settings, ls: seq<Label>, f: Fact)
    requires ls != []
    ensures
      var m := |ls| - 1;
      Stands(cfg, ls, f) <==>
        Makes(cfg, Run(cfg, ls[..m]), ls[m], f) ||
        (Stands(cfg, ls[..m], f) && !Breaks(cfg, Run(cfg, ls[..m]), ls[m], f))
  {
    hide Makes, Breaks, Run;
    var m := |ls| - 1;
    assert forall k :: 0 <= k < m ==> ls[..m][..k] == ls[..k] && ls[..m][k] == ls[k];
    assert forall k :: 0 <= k < m ==> (BrokenAt(cfg, ls, k, f) <==> BrokenAt(cfg, ls[..m], k, f));
    if Makes(cfg, Run(cfg, ls[..m]), ls[m], f) {
      assert MadeAt(cfg, ls, m, f) && UnbrokenSince(cfg, ls, m, f);
    }
    if Stands(cfg, ls[..m], f) && !Breaks(cfg, Run(cfg, ls[..m]), ls[m], f) {
      var n: nat :| MadeAt(cfg, ls[..m], n, f) && UnbrokenSince(cfg, ls[..m], n, f);
      assert MadeAt(cfg, ls, n, f) && UnbrokenSince(cfg, ls, n, f);
    }
    if Stands(cfg, ls, f) {
      var n: nat :| MadeAt(cfg, ls, n, f) && UnbrokenSince(cfg, ls, n, f);
      if n < m {
        assert MadeAt(cfg, ls[..m], n, f) && UnbrokenSince(cfg, ls[..m], n, f) && !BrokenAt(cfg, ls, m, f);
      }
    }
  }

  /**
   In every run of either wiring, each of these holds if and only if it was made and not broken since.

   So a call ends as it was answered: served by a warm cache, raised by a text client on one, by a failing lock or
   deletion, by a refusal or a crash, and otherwise returning what it fetched, stored or not. A process that dies
   frees nothing: the lock lives its time, and a cached token until it is replaced or deleted.
   */
  lemma {:induction false} FactIff(cfg: Settings, ls: seq<Label>, f: Fact)
    ensures Holds(Run(cfg, ls), f) <==> Stands(cfg, ls, f)
    decreases |ls|
  {
    hide Run, Next, Makes, Breaks, Stands;
    if ls == [] {
      NothingRun(cfg);
      NothingStands(cfg, f);
    } else {
      var m := |ls| - 1;
      RunExtends(cfg, ls[..m], ls, ls[m]);
      FactIff(cfg, ls[..m], f);
      FactStep(cfg, Run(cfg, ls[..m]), ls[m], f);
      StandsStep(cfg, ls, f);
    }
  }

  lemma NothingStands(cfg: Settings, f: Fact)
    ensures !Stands(cfg, [], f)
  {
  }

  // ----- A client that returns text ---------------------------------------------------------------

  /** At position `n` of the run, process `p` reads the cache through a client that returns text. */
  predicate ReadsText(cfg: Settings, ls: seq<Label>, n: nat, p: nat) {
    n < |ls| && ls[n] == Act(p, Text) && p < |Run(cfg, ls[..n]).procs| && Run(cfg, ls[..n]).procs[p].ReadCache?
  }

  /**
   In every run, as written and as meant: the call raises for good if the cache is warm when it reads, and goes
   on to the lock if it is not. A token in the cache is what makes it fail.
   */
  lemma TextReadRaisesIff(cfg: Settings, ls: seq<Label>, n: nat, p: nat)
    requires ReadsText(cfg, ls, n, p)
    ensures
      var s := Run(cfg, ls[..n]);
      && (Visible(cfg, s.cache, s.now) ==> p < |Run(cfg, ls).procs| && Run(cfg, ls).procs[p] == Finished(Raised))
      && (!Visible(cfg, s.cache, s.now) ==>
            p < |Run(cfg, ls[..n + 1]).procs| && Run(cfg, ls[..n + 1]).procs[p] == TakeLock)
  {
    hide Run;
    RunExtends(cfg, ls[..n], ls[..n + 1], ls[n]);
    assert ls[..n + 1] + ls[n + 1..] == ls;
    var s := Run(cfg, ls[..n]);
    if Visible(cfg, s.cache, s.now) {
      ReturnedStays(cfg, ls[..n + 1], ls[n + 1..], p);
    }
  }

  /** A token is fetched and stored; the next process, behind a client that returns text, fails on it. */
  function WarmLabels(x: int): seq<Label> {
    [Begin, Act(0, Down), Act(0, Issue(x)), Act(0, Up), Begin, Act(1, Text)]
  }

  /** For every setting and every token there is such a run. */
  lemma WarmCacheRaises(cfg: Settings, x: int)
    ensures
      var s := Run(cfg, WarmLabels(x));
      && ReadsText(cfg, WarmLabels(x), 5, 1) && s.cache == Some(Entry(Token(0.0, x), 0.0, 0))
      && s.procs == [Finished(Fetched(Token(0.0, x), false)), Finished(Raised)]
  {
    var e := Some(Entry(Token(0.0, x), 0.0, 0));
    var ls, done := WarmLabels(x), Finished(Fetched(Token(0.0, x), false));
    var states := [Initial(), State(None, None, [ReadCache], 0.0), State(None, None, [Fetching(false)], 0.0),
                   State(None, None, [Storing(false, Token(0.0, x))], 0.0), State(e, None, [done], 0.0),
                   State(e, None, [done, ReadCache], 0.0), State(e, None, [done, Finished(Raised)], 0.0)];
    assert states[4] == Next(cfg, states[3], ls[3]) && states[5] == Next(cfg, states[4], ls[4]);
    assert states[6] == Next(cfg, states[5], ls[5]);
    hide Run;
    RunIsTrace(cfg, states, ls);
    assert ls[..6] == ls;
  }

  // ----- One process at a time --------------------------------------------------------------------

  /** At position `n` of the run, process `p` takes the lock and becomes the one to fetch. */
  predicate Acquires(cfg: Settings, ls: seq<Label>, n: nat, p: nat) {
    n < |ls| && ls[n] == Act(p, Up) &&
    (var s := Run(cfg, ls[..n]);
     p < |s.procs| && s.procs[p].TakeLock? && !Held(s.lock, s.now))
  }

  /** As written nobody frees the lock: it lives its full time, whoever holds it, returned or not. */
  lemma {:induction false} LockLivesItsTime(cfg: Settings, ls: seq<Label>, more: seq<Label>)
    requires cfg.wiring.AsWritten? && Run(cfg, ls).lock.Some? && Run(cfg, ls + more).now < Run(cfg, ls).lock.value
    ensures Run(cfg, ls).now <= Run(cfg, ls + more).now && Run(cfg, ls + more).lock == Run(cfg, ls).lock
    decreases |more|
  {
    hide Run;
    if more == [] {
      assert ls + more == ls;
    } else {
      var n := |more| - 1;
      RunExtends(cfg, ls + more[..n], ls + more, more[n]);
      LockLivesItsTime(cfg, ls, more[..n]);
    }
  }

  lemma {:induction false} TimeMovesOn(cfg: Settings, ls: seq<Label>, more: seq<Label>)
    ensures Run(cfg, ls).now <= Run(cfg, ls + more).now
    decreases |more|
  {
    hide Run;
    if more == [] {
      assert ls + more == ls;
    } else {
      var n := |more| - 1;
      RunExtends(cfg, ls + more[..n], ls + more, more[n]);
      TimeMovesOn(cfg, ls, more[..n]);
    }
  }

  /**
   As written, from one acquisition on and for the whole life of the lock, a process that Redis answers
   goes polling instead of fetching, although the holder may have returned long ago.
   */
  lemma LatecomersPoll(cfg: Settings, ls: seq<Label>, n: nat, holder: nat, m: nat, late: nat)
    requires cfg.wiring.AsWritten? && Acquires(cfg, ls, n, holder) && n < m <= |ls|
    requires Run(cfg, ls[..m]).now < Run(cfg, ls[..n]).now + cfg.lockTtlMs as real / 1000.0
    requires late < |Run(cfg, ls[..m]).procs| && Run(cfg, ls[..m]).procs[late].TakeLock?
    ensures
      var s := Run(cfg, ls[..m]);
      Next(cfg, s, Act(late, Up)).procs[late]
        == if cfg.lockTtlMs < 250 then Fetching(false) else Polling(0, s.now + 0.25)
  {
    hide Run;
    LockAfter(cfg, ls, n, holder, m);
  }

  lemma LockAfter(cfg: Settings, ls: seq<Label>, n: nat, holder: nat, m: nat)
    requires cfg.wiring.AsWritten? && Acquires(cfg, ls, n, holder) && n < m <= |ls|
    requires Run(cfg, ls[..m]).now < Run(cfg, ls[..n]).now + LockSeconds(cfg)
    ensures Run(cfg, ls[..m]).lock == Some(Run(cfg, ls[..n]).now + LockSeconds(cfg))
  {
    hide Run;
    RunExtends(cfg, ls[..n], ls[..n + 1], ls[n]);
    assert ls[..n + 1] + ls[n + 1..m] == ls[..m];
    LockLivesItsTime(cfg, ls[..n + 1], ls[n + 1..m]);
  }

  predicate Fetches(p: Process) {
    p == Fetching(true) || (p.Storing? && p.holder)
  }

  /** Process `q` takes the lock `gap` seconds after `p` did, while `p` is still fetching. */
  predicate TwoHolders(cfg: Settings, ls: seq<Label>, i: nat, p: nat, j: nat, q: nat, gap: real) {
    && i < j && p != q && Acquires(cfg, ls, i, p) && Acquires(cfg, ls, j, q)
    && Run(cfg, ls[..j]).now - Run(cfg, ls[..i]).now == gap
    && p < |Run(cfg, ls[..j]).procs| && Fetches(Run(cfg, ls[..j]).procs[p])
  }

  /**
   The promise that only one process fetches at a time, of the processes that take the lock: as written a
   second one joins the first after some time, in some run, if and only if the lock lives no longer.
   */
  lemma TwoHoldersIff(cfg: Settings, gap: real)
    requires cfg.wiring.AsWritten?
    ensures (exists ls, i, p, j, q :: TwoHolders(cfg, ls, i, p, j, q, gap)) <==> gap >= cfg.lockTtlMs as real / 1000.0
  {
    hide Run;
    if ls: seq<Label>, i: nat, p: nat, j: nat, q: nat :| TwoHolders(cfg, ls, i, p, j, q, gap) {
      if gap < LockSeconds(cfg) {
        LockAfter(cfg, ls, i, p, j);
      }
    }
    if gap >= LockSeconds(cfg) {
      SlowHolderRun(cfg, gap);
    }
  }

  /** Process 0 is still fetching when its lock has run out, and process 1 takes it. */
  lemma SlowHolderRun(cfg: Settings, gap: real)
    requires gap >= LockSeconds(cfg)
    ensures exists ls, i, p, j, q :: TwoHolders(cfg, ls, i, p, j, q, gap)
  {
    var ls := [Begin, Act(0, Up), Act(0, Up), Tick(gap), Begin, Act(1, Up), Act(1, Up)];
    var lock := Some(LockSeconds(cfg));
    var s1 := State(None, None, [ReadCache], 0.0);
    var s2 := State(None, None, [TakeLock], 0.0);
    var s3 := State(None, lock, [Fetching(true)], 0.0);
    var s4 := State(None, lock, [Fetching(true)], gap);
    var s5 := State(None, lock, [Fetching(true), ReadCache], gap);
    var s6 := State(None, lock, [Fetching(true), TakeLock], gap);
    var s7 := Next(cfg, s6, ls[6]);
    PositiveLock(cfg);
    assert s3 == Next(cfg, s2, ls[2]) && s5 == Next(cfg, s4, ls[4]);
    RunIsTrace(cfg, [Initial(), s1, s2, s3, s4, s5, s6, s7], ls);
    assert TwoHolders(cfg, ls, 2, 0, 6, 1, gap);
  }

  /**
   As meant the promise is no better kept: the holder whose lock has run out frees its successor's lock, so
   a third process may join the second after any time at all.
   */
  lemma TwoHoldersAsMeantIff(cfg: Settings, gap: real)
    requires cfg.wiring.AsMeant?
    ensures (exists ls, i, p, j, q :: TwoHolders(cfg, ls, i, p, j, q, gap)) <==> gap >= 0.0
  {
    hide Run;
    if ls: seq<Label>, i: nat, p: nat, j: nat, q: nat :| TwoHolders(cfg, ls, i, p, j, q, gap) {
      assert ls[..i] + ls[i..j] == ls[..j];
      TimeMovesOn(cfg, ls[..i], ls[i..j]);
    }
    if gap >= 0.0 {
      FreedSuccessorRun(cfg, gap);
    }
  }

  function FreedSuccessorLabels(life: real, gap: real): seq<Label> {
    [Begin, Act(0, Up), Act(0, Up), Tick(life), Begin, Act(1, Up), Act(1, Up), Tick(gap), Act(0, Refuse), Act(0, Up),
     Begin, Act(2, Up), Act(2, Up)]
  }

  /** Process 0 takes the lock and is slow, 1 takes it after that, 0 returns and frees it, 2 takes it. */
  function FreedSuccessorStates(life: real, gap: real): seq<State> {
    var mine, its, next := Some(life), Some(life + life), Some(life + gap + life);
    var h, r, t, gone, later := Fetching(true), ReadCache, TakeLock, Finished(Raised), life + gap;
    [Initial(), State(None, None, [r], 0.0), State(None, None, [t], 0.0), State(None, mine, [h], 0.0),
     State(None, mine, [h], life), State(None, mine, [h, r], life), State(None, mine, [h, t], life),
     State(None, its, [h, h], life), State(None, its, [h, h], later), State(None, its, [Releasing(Raised), h], later),
     State(None, None, [gone, h], later), State(None, None, [gone, h, r], later),
     State(None, None, [gone, h, t], later), State(None, next, [gone, h, h], later)]
  }

  lemma FreedSuccessorSteps(cfg: Settings, gap: real, i: nat)
    requires cfg.wiring.AsMeant? && gap >= 0.0 && i < 13
    ensures
      var life := LockSeconds(cfg);
      var states := FreedSuccessorStates(life, gap);
      states[i + 1] == Next(cfg, states[i], FreedSuccessorLabels(life, gap)[i])
  {
    PositiveLock(cfg);
    hide LockSeconds;
  }

  lemma FreedSuccessorRun(cfg: Settings, gap: real)
    requires cfg.wiring.AsMeant? && gap >= 0.0
    ensures exists ls, i, p, j, q :: TwoHolders(cfg, ls, i, p, j, q, gap)
  {
    var life := LockSeconds(cfg);
    var ls, states := FreedSuccessorLabels(life, gap), FreedSuccessorStates(life, gap);
    PositiveLock(cfg);
    hide LockSeconds, Next, Run;
    forall i | 0 <= i < |ls|
      ensures states[i + 1] == Next(cfg, states[i], ls[i])
    {
      FreedSuccessorSteps(cfg, gap, i);
    }
    RunIsTrace(cfg, states, ls);
    assert Run(cfg, ls[..6]) == states[6] && Run(cfg, ls[..12]) == states[12];
    assert TwoHolders(cfg, ls, 6, 1, 12, 2, gap);
  }

  /** At position `n` of the run, process `p` begins to fetch, with or without the lock. */
  predicate Starts(cfg: Settings, ls: seq<Label>, n: nat, p: nat) {
    n < |ls| && p < |Run(cfg, ls[..n]).procs| && !Run(cfg, ls[..n]).procs[p].Fetching? &&
    p < |Run(cfg, ls[..n + 1]).procs| && Run(cfg, ls[..n + 1]).procs[p].Fetching?
  }

  /** Process `q` begins to fetch `gap` seconds after `p` did, while `p` is still fetching. */
  predicate TwoFetchers(cfg: Settings, ls: seq<Label>, i: nat, p: nat, j: nat, q: nat, gap: real) {
    && i < j && p != q && Starts(cfg, ls, i, p) && Starts(cfg, ls, j, q)
    && Run(cfg, ls[..j]).now - Run(cfg, ls[..i]).now == gap
    && p < |Run(cfg, ls[..j]).procs| && Run(cfg, ls[..j]).procs[p].Fetching?
  }

  /**
   Of all processes the promise says nothing: without Redis every one fetches for itself, so as written and as
   meant a second one may join the first after any time at all.
   */
  lemma TwoFetchersIff(cfg: Settings, gap: real)
    ensures (exists ls, i, p, j, q :: TwoFetchers(cfg, ls, i, p, j, q, gap)) <==> gap >= 0.0
  {
    hide Run;
    if ls: seq<Label>, i: nat, p: nat, j: nat, q: nat :| TwoFetchers(cfg, ls, i, p, j, q, gap) {
      assert ls[..i] + ls[i..j] == ls[..j];
      TimeMovesOn(cfg, ls[..i], ls[i..j]);
    }
    if gap >= 0.0 {
      var f := Fetching(false);
      var ls := [Begin, Act(0, Down), Tick(gap), Begin, Act(1, Down)];
      var states := [Initial(), State(None, None, [ReadCache], 0.0), State(None, None, [f], 0.0),
                     State(None, None, [f], gap), State(None, None, [f, ReadCache], gap),
                     State(None, None, [f, f], gap)];
      assert states[4] == Next(cfg, states[3], ls[3]) && states[5] == Next(cfg, states[4], ls[4]);
      RunIsTrace(cfg, states, ls);
      assert TwoFetchers(cfg, ls, 1, 0, 4, 1, gap);
    }
  }

  lemma PositiveLock(cfg: Settings)
    ensures LockSeconds(cfg) >= 0.0
  {
  }

  // ----- Bounded waiting --------------------------------------------------------------------------

  /** A waiter polls a bounded number of times and sleeps, in all, no longer than the lock can live. */
  lemma WaitingIsBounded(cfg: Settings, ls: seq<Label>, p: nat)
    requires p < |Run(cfg, ls).procs| && Run(cfg, ls).procs[p].Polling?
    ensures
      var polls := Run(cfg, ls).procs[p].polls + 1;
      polls <= cfg.lockTtlMs / 250 && polls as real * 0.25 <= cfg.lockTtlMs as real / 1000.0
  {
    InvAlways(cfg, ls);
    var q := Run(cfg, ls).procs[p];
    assert ProcessOk(cfg, Run(cfg, ls).now, q);
    PollsFitTheLock(cfg, q.polls + 1);
  }

  lemma PollsFitTheLock(cfg: Settings, polls: nat)
    requires polls <= MaxPolls(cfg)
    ensures polls as real * POLL_INTERVAL <= LockSeconds(cfg)
  {
    assert polls * 250 <= cfg.lockTtlMs;
    assert polls as real * 250.0 == (polls * 250) as real;
  }

  // ----- The manager object, under interference ---------------------------------------------------

  lemma WhatWasFound(cfg: Settings, ls: seq<Label>, p: nat)
    requires p < |Run(cfg, ls).procs|
    ensures IsServed(Run(cfg, ls).procs[p]) <==> exists n :: FindsWarm(cfg, ls, n, p)
    ensures forall n: nat :: FindsWarm(cfg, ls, n, p) ==>
              Run(cfg, ls).procs[p] == Finished(Served(Run(cfg, ls[..n]).cache.value, Run(cfg, ls[..n]).now))
  {
    hide Run, Next;
    ServedIffFoundWarm(cfg, ls, p);
    forall n: nat | FindsWarm(cfg, ls, n, p)
      ensures Run(cfg, ls[..n]).cache.Some?
      ensures Run(cfg, ls).procs[p] == Finished(Served(Run(cfg, ls[..n]).cache.value, Run(cfg, ls[..n]).now))
    {
      FoundWarmIsServed(cfg, ls, n, p);
    }
  }

  /** Redis as one process finds it, with the steps that all processes took so far. */
  class AuthManager {
    const cfg: Settings
    var cache: Option<Entry>
    var lock: Option<real>
    var now: real
    var procs: seq<Process>
    var history: seq<Label>

    function Contents(): State
      reads this
    {
      State(cache, lock, procs, now)
    }

    ghost predicate Valid()
      reads this
    {
      Contents() == Run(cfg, history)
    }

    constructor (cfg: Settings)
      ensures Valid() && this.cfg == cfg
    {
      this.cfg, cache, lock, now, procs, history := cfg, None, None, 0.0, [], [];
    }

    /** Any number of steps of the other processes and of the clock. */
    method Await(me: nat)
      requires Valid() && me < |procs|
      modifies this
      ensures Valid() && me < |procs| && procs[me] == old(procs)[me] && old(history) <= history && old(now) <= now
    {
      hide Next, Run;
      var others: seq<Label> := *;
      for i := 0 to |others|
        invariant Valid() && me < |procs| && procs[me] == old(procs)[me] && old(history) <= history && old(now) <= now
      {
        if !Names(others[i], me) {
          NextLeaves(cfg, Contents(), others[i], me);
          RunExtends(cfg, history, history + [others[i]], others[i]);
          var s := Next(cfg, Contents(), others[i]);
          cache, lock, procs, now := s.cache, s.lock, s.procs, s.now;
          history := history + [others[i]];
        }
      }
    }

    /** Records what this process just did to Redis: it must be a step of the protocol. */
    method Record(me: nat, answer: Answer)
      requires me < |procs|
      requires
        var before := Run(cfg, history);
        var after := Next(cfg, before, Act(me, answer));
        && procs == before.procs && now == before.now == after.now
        && cache == after.cache && lock == after.lock
      modifies this`procs, this`history
      ensures Valid() && history == old(history) + [Act(me, answer)]
      ensures procs == Next(cfg, Run(cfg, old(history)), Act(me, answer)).procs
      ensures |procs| == |old(procs)|
    {
      hide Run;
      RunExtends(cfg, history, history + [Act(me, answer)], Act(me, answer));
      var s := Move(cfg, Run(cfg, history), me, answer);
      procs := s.procs;
      history := history + [Act(me, answer)];
    }

    method FetchNewToken(me: nat, holder: bool) returns (result: Result)
      requires Valid() && me < |procs| && procs[me] == Fetching(holder)
      modifies this
      ensures Valid() && me < |procs| && old(history) <= history
      ensures procs[me] == if holder then Releasing(result) else Finished(result)
      ensures result.Raised? || (result.Fetched? && result.holder == holder)
      ensures |history| > |old(history)|
      ensures result.Raised? <==> history[|history| - 1] == Act(me, Refuse)
      ensures result.Fetched? ==>
                old(now) <= result.token.issuedAt <= now &&
                (history[|history| - 1] == Act(me, Down) || cache == Some(Entry(result.token, now, me)))
    {
      hide Run;
      Await(me);
      var issued: bool, expiresIn: int := *, *;
      if !issued {
        Record(me, Refuse);
        return Raised;
      }
      var token := Token(now, expiresIn);
      Record(me, Issue(expiresIn));
      Await(me);
      var answer: Answer := *;
      if answer.Up? || answer.Lost? {
        cache := Some(Entry(token, now, me));
        Record(me, answer);
      } else {
        Record(me, Down);
      }
      return Fetched(token, holder);
    }

    /** The branch of the lock holder, with its `finally` block. */
    method RefreshAsHolder(me: nat) returns (result: Result)
      requires Valid() && me < |procs| && procs[me] == Fetching(true)
      modifies this
      ensures Valid() && me < |procs| && old(history) <= history
      ensures !result.Served?
      ensures procs[me] == Finished(result)
      ensures |history| > |old(history)|
      ensures result.Fetched? ==>
                history[|history| - 1] == Act(me, Up) && result.holder && result.token.issuedAt >= old(now)
      ensures history[|history| - 1] == Act(me, Up) ==>
                if cfg.wiring.AsWritten? then cache == None else lock == None
    {
      hide Run;
      result := FetchNewToken(me, true);
      Await(me);
      var reply: Answer := *;
      if reply.Down? {
        Record(me, Down);
        return Raised;
      }
      if cfg.wiring.AsWritten? {
        cache := None;
      } else {
        lock := None;
      }
      if reply.Lost? {
        Record(me, Lost);
        return Raised;
      }
      Record(me, Up);
    }

    /** The counted polling loop of a process that found the lock held. */
    method PollForToken(me: nat, text: bool) returns (found: Option<Result>, ghost slept: real)
      requires Valid() && me < |procs|
      requires procs[me] == if MaxPolls(cfg) == 0 then Fetching(false) else Polling(0, now + POLL_INTERVAL)
      modifies this
      ensures Valid() && me < |procs| && old(history) <= history
      ensures procs[me] == if found.Some? then Finished(found.value) else Fetching(false)
      ensures found.Some? ==> !text
      ensures found.Some? <==> exists n :: FindsWarm(cfg, history, n, me)
      ensures forall n: nat :: FindsWarm(cfg, history, n, me) ==>
                found == Some(Served(Run(cfg, history[..n]).cache.value, Run(cfg, history[..n]).now))
      ensures slept <= cfg.lockTtlMs as real / 1000.0
      ensures found.None? ==> slept == (cfg.lockTtlMs / 250) as real * 0.25
    {
      hide Run;
      slept := 0.0;
      for poll := 0 to MaxPolls(cfg)
        invariant Valid() && me < |procs| && old(history) <= history
        invariant slept == poll as real * POLL_INTERVAL
        invariant if poll < MaxPolls(cfg) then procs[me].Polling? && procs[me].polls == poll
                  else procs[me] == Fetching(false)
      {
        slept := slept + POLL_INTERVAL;
        PollsFitTheLock(cfg, poll + 1);
        Await(me);
        if now < procs[me].wake {
          Advance(procs[me].wake - now);
        }
        var reply: bool := *;
        if reply {
          if text {
            Record(me, Text);
          } else if Visible(cfg, cache, now) {
            var entry := cache.value;
            Record(me, Up);
            WhatWasFound(cfg, history, me);
            return Some(Served(entry, now)), slept;
          } else {
            Record(me, Up);
          }
        } else {
          Record(me, Down);
        }
      }
      PollsFitTheLock(cfg, MaxPolls(cfg));
      WhatWasFound(cfg, history, me);
      return None, slept;
    }

    method AcquireLockAndRefresh(me: nat, text: bool) returns (result: Result, ghost slept: real)
      requires Valid() && me < |procs| && procs[me] == TakeLock
      modifies this
      ensures Valid() && me < |procs| && old(history) < history
      ensures procs[me] == Finished(result)
      ensures text ==> !result.Served?
      ensures result.Served? <==> exists n :: FindsWarm(cfg, history, n, me)
      ensures slept <= cfg.lockTtlMs as real / 1000.0
    {
      hide Run;
      PollsFitTheLock(cfg, 0);
      slept := 0.0;
      Await(me);
      var answer: Answer := *;
      if answer.Down? {
        Record(me, Down);
        WhatWasFound(cfg, history, me);
        return Raised, slept;
      }
      var acquired := !Held(lock, now);
      if acquired {
        lock := Some(now + LockSeconds(cfg));
      }
      if answer.Lost? {
        Record(me, Lost);
        WhatWasFound(cfg, history, me);
        return Raised, slept;
      }
      Record(me, Up);
      if acquired {
        result := RefreshAsHolder(me);
      } else {
        var found;
        found, slept := PollForToken(me, text);
        if found.Some? {
          result := found.value;
        } else {
          result := FetchNewToken(me, false);
        }
      }
      WhatWasFound(cfg, history, me);
    }

    /** The rest of a sleep. */
    method Advance(seconds: real)
      requires Valid() && seconds >= 0.0
      modifies this`now, this`history
      ensures Valid() && now == old(now) + seconds && old(history) <= history
    {
      now := now + seconds;
      history := history + [Tick(seconds)];
    }

    /**
     get_token as written, with every other process free to act at every await: it ends, as one step
     sequence of the protocol, and a token it takes from the cache is as fresh as the protocol promises.
     Its first read, at position `read` of the run, fails or is answered; behind a client that returns text an
     answered read ends the call, by an exception, exactly when the cache is warm, and no token is ever served.
     */
    method GetToken(me: nat, text: bool) returns (result: Result, ghost read: nat)
      requires Valid() && me < |procs| && procs[me] == ReadCache
      modifies this
      ensures Valid() && me < |procs| && old(history) <= history
      ensures procs[me] == Finished(result)
      ensures |old(history)| <= read < |history|
      ensures history[read] == Act(me, Down) || history[read] == Act(me, if text then Text else Up)
      ensures text ==> !result.Served?
      ensures history[read] == Act(me, Text) ==>
                ReadsText(cfg, history, read, me) &&
                var s := Run(cfg, history[..read]);
                (|history| == read + 1 <==> Visible(cfg, s.cache, s.now)) &&
                (Visible(cfg, s.cache, s.now) ==> result == Raised)
      ensures result.Served? <==> exists n :: FindsWarm(cfg, history, n, me)
      ensures forall n: nat :: FindsWarm(cfg, history, n, me) ==>
                result == Served(Run(cfg, history[..n]).cache.value, Run(cfg, history[..n]).now)
      ensures result.Fetched? ==> Issued(cfg, history, me, result.token)
      ensures result.Served? && result.entry.token.expiresIn >= cfg.margin + 60 ==>
                result.entry.token.issuedAt + result.entry.token.expiresIn as real - result.at
                  > cfg.margin as real - Latency(result.entry)
    {
      hide Run;
      Await(me);
      read := |history|;
      ghost var before := history;
      var reachable: bool := *;
      if !reachable {
        Record(me, Down);
        result := FetchNewToken(me, false);
      } else if Visible(cfg, cache, now) {
        result := if text then Raised else Served(cache.value, now);
        Record(me, if text then Text else Up);
      } else {
        Record(me, if text then Text else Up);
        ghost var slept;
        result, slept := AcquireLockAndRefresh(me, text);
      }
      assert history[..read] == before;
      WhatWasFound(cfg, history, me);
      TokensWereIssued(cfg, history);
      if result.Served? {
        ServedTokenIsFresh(cfg, history, me);
      }
    }
  }
}
