/**
 The audit trail of app/models/audit.py: `Append` chains a digest from row to row of one payment and
 `VerifyChainIntegrity` recomputes the chain. SHA-256 (FIPS 180-4) is an arbitrary function `h` whose
 digests are non-empty and free of '|'. No collision resistance is assumed: where a claim needs it, the
 conclusion is the claim or two different messages with one digest.
 */
module AuditChain {
  import opened Basics

  type Hash = string -> string

  const BAR := '|'

  ghost predicate GivesDigests(h: Hash) {
    forall m :: h(m) != "" && BAR !in h(m)
  }

  ghost predicate Collision(h: Hash) {
    exists m, n :: Collide(h, m, n)
  }

  predicate Collide(h: Hash, m: string, n: string) {
    m != n && h(m) == h(n)
  }

  datatype Entry = Entry(paymentId: string, eventType: string, payload: Option<string>,
                         checksum: string, previousChecksum: Option<string>, createdAt: int, actor: string)

  /** The message that is hashed: four fields joined by '|', the last of them possibly empty. */
  function Message(paymentId: string, eventType: string, payload: string, previous: string): string {
    paymentId + [BAR] + eventType + [BAR] + payload + [BAR] + previous
  }

  function TextOr<T>(text: Option<seq<T>>): seq<T> {
    if text.Some? then text.value else []
  }

  function ComputeChecksum(h: Hash, paymentId: string, eventType: string, payload: string,
                           previous: Option<string>): string {
    h(Message(paymentId, eventType, payload, TextOr(previous)))
  }

  /** Identifiers are UUIDs and event types come from a fixed list: neither contains the delimiter. */
  predicate WellNamed(e: Entry) {
    BAR !in e.paymentId && BAR !in e.eventType
  }

  predicate AllWellNamed(es: seq<Entry>) {
    forall i :: 0 <= i < |es| ==> WellNamed(es[i])
  }

  // ----- The encoding is injective ----------------------------------------------------------------

  lemma BarAtFirstCut(a: string, x: string, b: string, y: string)
    requires a + [BAR] + x == b + [BAR] + y
    ensures |a| < |b| ==> BAR in b
  {
    assert (a + [BAR] + x)[|a|] == BAR;
    assert |a| < |b| ==> b[|a|] == (b + [BAR] + y)[|a|];
  }

  lemma BarAtLastCut(x: string, a: string, y: string, b: string)
    requires x + [BAR] + a == y + [BAR] + b
    ensures |x| < |y| ==> BAR in a
  {
    assert (y + [BAR] + b)[|y|] == BAR;
    assert |x| < |y| ==> a[|y| - |x| - 1] == (x + [BAR] + a)[|y|];
  }

  lemma CutAtFirstBar(a: string, x: string, b: string, y: string)
    requires BAR !in a && BAR !in b
    requires a + [BAR] + x == b + [BAR] + y
    ensures a == b && x == y
  {
    var s := a + [BAR] + x;
    BarAtFirstCut(a, x, b, y);
    BarAtFirstCut(b, y, a, x);
    assert a == s[..|a|] && b == s[..|b|];
    assert x == s[|a| + 1..] && y == s[|b| + 1..];
  }

  lemma CutAtLastBar(x: string, a: string, y: string, b: string)
    requires BAR !in a && BAR !in b
    requires x + [BAR] + a == y + [BAR] + b
    ensures x == y && a == b
  {
    var s := x + [BAR] + a;
    BarAtLastCut(x, a, y, b);
    BarAtLastCut(y, b, x, a);
    assert x == s[..|x|] && y == s[..|y|];
    assert a == s[|x| + 1..] && b == s[|y| + 1..];
  }

  /** The payload may contain the delimiter; the other three fields may not. Then no two rows encode alike. */
  lemma EncodingIsInjective(p: string, e: string, x: string, d: string, p': string, e': string, x': string, d': string)
    requires BAR !in p && BAR !in p' && BAR !in e && BAR !in e' && BAR !in d && BAR !in d'
    requires Message(p, e, x, d) == Message(p', e', x', d')
    ensures p == p' && e == e' && x == x' && d == d'
  {
    var rest := e + [BAR] + (x + [BAR] + d);
    var rest' := e' + [BAR] + (x' + [BAR] + d');
    assert Message(p, e, x, d) == p + [BAR] + rest;
    assert Message(p', e', x', d') == p' + [BAR] + rest';
    CutAtFirstBar(p, rest, p', rest');
    CutAtFirstBar(e, x + [BAR] + d, e', x' + [BAR] + d');
    CutAtLastBar(x, d, x', d');
  }

  /** With a delimiter in the event type every message has a second reading, so that premise is needed. */
  lemma BarInEventTypeIsAmbiguous(p: string, e: string, f: string, x: string, d: string)
    ensures Message(p, e + [BAR] + f, x, d) == Message(p, e, f + [BAR] + x, d)
    ensures (e + [BAR] + f, x) != (e, f + [BAR] + x)
  {
    assert |e + [BAR] + f| > |e|;
    calc {
      Message(p, e + [BAR] + f, x, d);
      p + [BAR] + (e + [BAR] + f) + [BAR] + x + [BAR] + d;
      p + [BAR] + e + [BAR] + (f + [BAR] + x) + [BAR] + d;
      Message(p, e, f + [BAR] + x, d);
    }
  }

  // ----- Verification -----------------------------------------------------------------------------

  /** What verification carries into row `i`: the digest of the row before, or nothing. */
  function Before(es: seq<Entry>, i: nat): string
    requires i <= |es|
  {
    if i == 0 then "" else es[i - 1].checksum
  }

  function RowMessage(e: Entry, previous: string): string {
    Message(e.paymentId, e.eventType, TextOr(e.payload), previous)
  }

  predicate Accepts(h: Hash, es: seq<Entry>) {
    forall i :: 0 <= i < |es| ==> es[i].checksum == h(RowMessage(es[i], Before(es, i)))
  }

  lemma DigestBefore(h: Hash, es: seq<Entry>, i: nat)
    requires GivesDigests(h) && Accepts(h, es) && i <= |es|
    ensures BAR !in Before(es, i)
    ensures Before(es, i) == "" <==> i == 0
    ensures i > 0 ==> Before(es, i) == es[i - 1].checksum == h(RowMessage(es[i - 1], Before(es, i - 1)))
  {
    if i > 0 {
      assert es[i - 1].checksum == h(RowMessage(es[i - 1], Before(es, i - 1)));
    }
  }

  /** Two rows with one digest carry the same columns and the same history before them, or collide. */
  lemma EqualDigests(h: Hash, x: Entry, p: string, y: Entry, q: string)
    requires WellNamed(x) && WellNamed(y) && BAR !in p && BAR !in q
    requires h(RowMessage(x, p)) == h(RowMessage(y, q))
    ensures Collision(h) || (SameColumns(x, y) && p == q)
  {
    if RowMessage(x, p) == RowMessage(y, q) {
      EncodingIsInjective(x.paymentId, x.eventType, TextOr(x.payload), p,
                          y.paymentId, y.eventType, TextOr(y.payload), q);
    } else {
      assert Collide(h, RowMessage(x, p), RowMessage(y, q));
    }
  }

  /** The columns the digest covers; a NULL payload and an empty one are not told apart. */
  predicate SameColumns(x: Entry, y: Entry) {
    x.paymentId == y.paymentId && x.eventType == y.eventType && TextOr(x.payload) == TextOr(y.payload)
  }

  predicate SameHistory(xs: seq<Entry>, ys: seq<Entry>) {
    |xs| == |ys| && forall i :: 0 <= i < |xs| ==> SameColumns(xs[i], ys[i]) && xs[i].checksum == ys[i].checksum
  }

  /** The last checksum commits to the whole history. */
  lemma {:induction false} LastChecksumCommits(h: Hash, xs: seq<Entry>, ys: seq<Entry>)
    requires GivesDigests(h) && AllWellNamed(xs) && AllWellNamed(ys)
    requires Accepts(h, xs) && Accepts(h, ys)
    requires Before(xs, |xs|) == Before(ys, |ys|)
    ensures Collision(h) || SameHistory(xs, ys)
    decreases |xs|
  {
    hide Accepts, Before, RowMessage, GivesDigests, Collision;
    var n, m := |xs|, |ys|;
    DigestBefore(h, xs, n);
    DigestBefore(h, ys, m);
    if n > 0 {
      DigestBefore(h, xs, n - 1);
      DigestBefore(h, ys, m - 1);
      EqualDigests(h, xs[n - 1], Before(xs, n - 1), ys[m - 1], Before(ys, m - 1));
      if !Collision(h) {
        PrefixAccepted(h, xs, n - 1);
        PrefixAccepted(h, ys, m - 1);
        var us, vs := xs[..n - 1], ys[..m - 1];
        assert xs == us + [xs[n - 1]] && ys == vs + [ys[m - 1]];
        LastChecksumCommits(h, us, vs);
      }
    }
  }

  /** Accepted sequences are closed under prefix. */
  lemma PrefixAccepted(h: Hash, es: seq<Entry>, n: nat)
    requires Accepts(h, es) && n <= |es|
    ensures Accepts(h, es[..n])
    ensures Before(es[..n], n) == Before(es, n)
  {
    forall i | 0 <= i < n
      ensures es[..n][i].checksum == h(RowMessage(es[..n][i], Before(es[..n], i)))
    {
      assert es[i].checksum == h(RowMessage(es[i], Before(es, i)));
    }
  }

  /** No digest recurs in an accepted history, and none recurs as the empty start. */
  lemma {:induction false} DigestsDiffer(h: Hash, es: seq<Entry>, i: nat, j: nat)
    requires GivesDigests(h) && AllWellNamed(es) && Accepts(h, es) && i < j <= |es|
    ensures Collision(h) || Before(es, i) != Before(es, j)
    decreases i
  {
    hide Accepts, Before, RowMessage, GivesDigests, Collision;
    DigestBefore(h, es, i);
    DigestBefore(h, es, j);
    if i > 0 && Before(es, i) == Before(es, j) {
      DigestBefore(h, es, i - 1);
      DigestBefore(h, es, j - 1);
      EqualDigests(h, es[i - 1], Before(es, i - 1), es[j - 1], Before(es, j - 1));
      DigestsDiffer(h, es, i - 1, j - 1);
    }
  }

  // ----- The builder ------------------------------------------------------------------------------

  datatype Event = Event(paymentId: string, eventType: string, payload: string, createdAt: int, actor: string)

  /** The row `append` writes, given the digest it read as the latest one. */
  function Chained(h: Hash, ev: Event, previous: Option<string>): Entry {
    Entry(ev.paymentId, ev.eventType, Some(ev.payload),
          ComputeChecksum(h, ev.paymentId, ev.eventType, ev.payload, previous),
          previous, ev.createdAt, ev.actor)
  }

  function Latest(es: seq<Entry>): Option<string> {
    if es == [] then None else Some(es[|es| - 1].checksum)
  }

  function Build(h: Hash, evs: seq<Event>): (es: seq<Entry>) {
    if evs == [] then []
    else
      var es := Build(h, evs[..|evs| - 1]);
      es + [Chained(h, evs[|evs| - 1], Latest(es))]
  }

  function Insert(es: seq<Entry>, position: nat, e: Entry): seq<Entry>
    requires position <= |es|
  {
    es[..position] + [e] + es[position..]
  }

  /**
   An appended row that sorts after every other row keeps the history accepted; one that chains to the
   latest digest but sorts before another row makes verification reject, or exhibits a collision.
   */
  lemma AppendAccepted(h: Hash, es: seq<Entry>, position: nat, ev: Event)
    requires GivesDigests(h) && Accepts(h, es) && AllWellNamed(es)
    requires position <= |es| && BAR !in ev.paymentId && BAR !in ev.eventType
    ensures position == |es| ==> Accepts(h, Insert(es, position, Chained(h, ev, Latest(es))))
    ensures position < |es| ==> Collision(h) || !Accepts(h, Insert(es, position, Chained(h, ev, Latest(es))))
  {
    hide Accepts, RowMessage, GivesDigests, Collision;
    var e := Chained(h, ev, Latest(es));
    var all := Insert(es, position, e);
    ChainedMessage(h, es, ev);
    if position == |es| {
      Extend(h, es, e);
      assert all == es + [e];
    } else if Accepts(h, all) {
      assert all[position] == e && Before(all, position) == Before(es, position);
      DigestBefore(h, all, position + 1);
      DigestBefore(h, es, position);
      DigestBefore(h, es, |es|);
      EqualDigests(h, e, Before(es, |es|), e, Before(es, position));
      DigestsDiffer(h, es, position, |es|);
    }
  }

  lemma ChainedMessage(h: Hash, es: seq<Entry>, ev: Event)
    ensures
      var e := Chained(h, ev, Latest(es));
      e.checksum == h(RowMessage(e, Before(es, |es|)))
  {
  }

  lemma BeforeKept(es: seq<Entry>, e: Entry, i: nat)
    requires i <= |es|
    ensures Before(es + [e], i) == Before(es, i)
  {
  }

  lemma Extend(h: Hash, es: seq<Entry>, e: Entry)
    requires Accepts(h, es) && e.checksum == h(RowMessage(e, Before(es, |es|)))
    ensures Accepts(h, es + [e])
  {
    hide RowMessage, Before;
    var all := es + [e];
    forall i | 0 <= i < |all|
      ensures all[i].checksum == h(RowMessage(all[i], Before(all, i)))
    {
      BeforeKept(es, e, i);
      if i < |es| {
        assert es[i].checksum == h(RowMessage(es[i], Before(es, i)));
      }
    }
  }

  /** Two appends that read the same predecessor: verification rejects, or there is a collision. */
  lemma ForkRejected(h: Hash, es: seq<Entry>, first: Event, second: Event)
    requires GivesDigests(h) && Accepts(h, es) && AllWellNamed(es)
    requires BAR !in first.paymentId && BAR !in first.eventType
    requires BAR !in second.paymentId && BAR !in second.eventType
    ensures Collision(h) ||
            !Accepts(h, es + [Chained(h, first, Latest(es)), Chained(h, second, Latest(es))])
  {
    hide Accepts, RowMessage, GivesDigests, Collision;
    var x, y := Chained(h, first, Latest(es)), Chained(h, second, Latest(es));
    ChainedMessage(h, es, first);
    ChainedMessage(h, es, second);
    Extend(h, es, x);
    var one := es + [x];
    var two := es + [x, y];
    if Accepts(h, two) {
      assert two[|es| + 1] == y && Before(two, |es| + 1) == x.checksum == Before(one, |one|);
      assert Before(es, |es|) == Before(one, |es|);
      DigestBefore(h, two, |es| + 2);
      DigestBefore(h, one, |es|);
      DigestBefore(h, one, |one|);
      EqualDigests(h, y, Before(one, |es|), y, Before(one, |one|));
      DigestsDiffer(h, one, |es|, |one|);
    }
  }

  /** The digest over the event's fields and the digest before, if there is one. */
  predicate Seals(h: Hash, checksum: string, p: string, e: string, x: string, before: Option<string>) {
    match before
    case None => checksum == h(p + "|" + e + "|" + x + "|")
    case Some(d) => checksum == h(p + "|" + e + "|" + x + "|" + d)
  }

  /** The row's digest is that of its fields and of the row before, if there is one; a NULL payload reads as empty. */
  predicate SealedInPlace(h: Hash, es: seq<Entry>, i: nat)
    requires i < |es|
  {
    var e := es[i];
    Seals(h, e.checksum, e.paymentId, e.eventType, if e.payload.Some? then e.payload.value else "",
          if i == 0 then None else Some(es[i - 1].checksum))
  }

  lemma AcceptsIff(h: Hash, es: seq<Entry>)
    ensures Accepts(h, es) <==> forall i :: 0 <= i < |es| ==> SealedInPlace(h, es, i)
  {
    forall i | 0 <= i < |es|
      ensures SealedInPlace(h, es, i) <==> es[i].checksum == h(RowMessage(es[i], Before(es, i)))
    {
      var text := es[i].paymentId + "|" + es[i].eventType + "|" + TextOr(es[i].payload) + "|";
      assert text + "" == text;
    }
  }

  lemma NothingToCheck(h: Hash)
    ensures Accepts(h, [])
  {
  }

  /** What `append` builds row by row is accepted. */
  lemma {:induction false} BuildAccepted(h: Hash, evs: seq<Event>)
    ensures Accepts(h, Build(h, evs))
  {
    hide RowMessage, Before, Accepts, Chained;
    if evs == [] {
      NothingToCheck(h);
    } else {
      var n := |evs| - 1;
      BuildAccepted(h, evs[..n]);
      var es := Build(h, evs[..n]);
      ChainedMessage(h, es, evs[n]);
      Extend(h, es, Chained(h, evs[n], Latest(es)));
    }
  }

  lemma {:induction false} BuildColumns(h: Hash, evs: seq<Event>, i: nat)
    requires i < |evs|
    ensures |Build(h, evs)| == |evs|
    ensures SameColumns(Build(h, evs)[i], Chained(h, evs[i], None))
    decreases |evs|
  {
    var n := |evs| - 1;
    BuildLength(h, evs[..n]);
    if i < n {
      BuildColumns(h, evs[..n], i);
    }
  }

  lemma {:induction false} BuildLength(h: Hash, evs: seq<Event>)
    ensures |Build(h, evs)| == |evs|
  {
    hide Chained;
    if evs != [] {
      BuildLength(h, evs[..|evs| - 1]);
    }
  }

  /** The row records the event, sealed after the row whose digest is `before`; NULL only for the first row. */
  predicate Records(h: Hash, row: Entry, ev: Event, before: Option<string>) {
    && row.paymentId == ev.paymentId && row.eventType == ev.eventType && row.payload == Some(ev.payload)
    && row.createdAt == ev.createdAt && row.actor == ev.actor && row.previousChecksum == before
    && Seals(h, row.checksum, ev.paymentId, ev.eventType, ev.payload, before)
  }

  lemma ChainedRecords(h: Hash, ev: Event, before: Option<string>)
    ensures Records(h, Chained(h, ev, before), ev, before)
  {
    var text := ev.paymentId + "|" + ev.eventType + "|" + ev.payload + "|";
    assert text + "" == text;
  }

  /** Every row that is built records its event and names the digest of the row before it. */
  lemma {:induction false} BuiltRowsAreLinked(h: Hash, evs: seq<Event>, i: nat)
    requires i < |evs|
    ensures |Build(h, evs)| == |evs|
    ensures
      var es := Build(h, evs);
      Records(h, es[i], evs[i], if i == 0 then None else Some(es[i - 1].checksum))
    decreases |evs|
  {
    hide Chained, Records;
    var n := |evs| - 1;
    BuildLength(h, evs[..n]);
    if i < n {
      BuiltRowsAreLinked(h, evs[..n], i);
    } else {
      ChainedRecords(h, evs[n], Latest(Build(h, evs[..n])));
    }
  }

  function Replay(es: seq<Entry>): seq<Event> {
    seq(|es|, i requires 0 <= i < |es| =>
      Event(es[i].paymentId, es[i].eventType, TextOr(es[i].payload), es[i].createdAt, es[i].actor))
  }

  /** The accepted histories are exactly those `append` builds, on the columns the digest covers. */
  lemma AcceptedIffBuilt(h: Hash, es: seq<Entry>)
    ensures Accepts(h, es) <==> SameHistory(es, Build(h, Replay(es)))
  {
    var built := Build(h, Replay(es));
    BuildAccepted(h, Replay(es));
    BuildLength(h, Replay(es));
    if SameHistory(es, built) {
      forall i | 0 <= i < |es|
        ensures es[i].checksum == h(RowMessage(es[i], Before(es, i)))
      {
        assert built[i].checksum == h(RowMessage(built[i], Before(built, i)));
      }
    }
    if Accepts(h, es) {
      forall i | 0 <= i < |es|
        ensures SameColumns(es[i], built[i]) && es[i].checksum == built[i].checksum
      {
        SameChecksum(h, es, i);
      }
    }
  }

  lemma {:induction false} SameChecksum(h: Hash, es: seq<Entry>, i: nat)
    requires Accepts(h, es) && i < |es|
    requires |Build(h, Replay(es))| == |es|
    ensures SameColumns(es[i], Build(h, Replay(es))[i])
    ensures es[i].checksum == Build(h, Replay(es))[i].checksum
  {
    hide Message, Build, Accepts;
    var built := Build(h, Replay(es));
    BuildAccepted(h, Replay(es));
    BuildColumns(h, Replay(es), i);
    ChecksumAt(h, es, i);
    ChecksumAt(h, built, i);
    if i > 0 {
      SameChecksum(h, es, i - 1);
    }
    assert Before(es, i) == Before(built, i);
  }

  lemma ChecksumAt(h: Hash, es: seq<Entry>, i: nat)
    requires Accepts(h, es) && i < |es|
    ensures es[i].checksum == h(RowMessage(es[i], Before(es, i)))
  {
  }

  // ----- The repository ---------------------------------------------------------------------------

  predicate InOrder(es: seq<Entry>) {
    forall i, j :: 0 <= i < j < |es| ==> es[i].createdAt <= es[j].createdAt
  }

  /** A result of the query by `created_at`: rows of one instant come in any order, from one query to the next. */
  predicate Reads(rows: multiset<Entry>, es: seq<Entry>) {
    multiset(es) == rows && InOrder(es)
  }

  predicate Strict(es: seq<Entry>) {
    forall i, j :: 0 <= i < j < |es| ==> es[i].createdAt < es[j].createdAt
  }

  /** The row of `ev` is strictly later than every row of `es`. */
  predicate Later(ev: Event, es: seq<Entry>) {
    forall e <- es :: e.createdAt < ev.createdAt
  }

  /** Verification accepts in whatever order the rows are read. */
  ghost predicate SurelyAccepted(h: Hash, rows: multiset<Entry>) {
    forall es :: Reads(rows, es) ==> Accepts(h, es)
  }

  lemma SameLength(es: seq<Entry>, es': seq<Entry>)
    requires multiset(es) == multiset(es')
    ensures |es| == |es'|
  {
    assert |multiset(es)| == |es| && |multiset(es')| == |es'|;
  }

  lemma FrontMultiset(es: seq<Entry>)
    requires es != []
    ensures multiset(es[..|es| - 1]) == multiset(es) - multiset{es[|es| - 1]}
  {
    assert es == es[..|es| - 1] + [es[|es| - 1]];
  }

  /** Without a common last row the same rows are left. */
  lemma SameFronts(es: seq<Entry>, es': seq<Entry>)
    requires multiset(es) == multiset(es') && |es| == |es'| > 0 && es[|es| - 1] == es'[|es| - 1]
    ensures multiset(es[..|es| - 1]) == multiset(es'[..|es| - 1])
  {
    FrontMultiset(es);
    FrontMultiset(es');
  }

  lemma SameFromFront(es: seq<Entry>, es': seq<Entry>)
    requires |es| == |es'| > 0 && es[..|es| - 1] == es'[..|es| - 1] && es[|es| - 1] == es'[|es| - 1]
    ensures es == es'
  {
    var n := |es| - 1;
    assert es == es[..n] + [es[n]] && es' == es'[..n] + [es'[n]];
  }

  lemma SameLast(es: seq<Entry>, es': seq<Entry>)
    requires multiset(es) == multiset(es') && Strict(es) && InOrder(es') && |es| == |es'| > 0
    ensures es[|es| - 1] == es'[|es| - 1]
  {
    var n := |es| - 1;
    assert es[n] in multiset(es) && es'[n] in multiset(es');
    var i :| 0 <= i <= n && es'[i] == es[n];
    var j :| 0 <= j <= n && es[j] == es'[n];
    assert es'[i].createdAt <= es'[n].createdAt;
  }

  lemma FrontsOrdered(es: seq<Entry>, es': seq<Entry>)
    requires Strict(es) && InOrder(es') && |es| == |es'| > 0
    ensures Strict(es[..|es| - 1]) && InOrder(es'[..|es| - 1])
  {
  }

  /** With distinct times the order is determined. */
  lemma {:induction false} StrictOrderIsUnique(es: seq<Entry>, es': seq<Entry>)
    requires multiset(es) == multiset(es') && Strict(es) && InOrder(es')
    ensures es == es'
    decreases |es|
  {
    hide Strict, InOrder;
    SameLength(es, es');
    if es != [] {
      SameLast(es, es');
      FrontsOrdered(es, es');
      SameFronts(es, es');
      StrictOrderIsUnique(es[..|es| - 1], es'[..|es| - 1]);
      SameFromFront(es, es');
    }
  }

  lemma InsertMultiset(es: seq<Entry>, place: nat, e: Entry)
    requires place <= |es|
    ensures multiset(Insert(es, place, e)) == multiset(es) + multiset{e}
  {
    assert es == es[..place] + es[place..];
  }

  lemma InsertInOrder(es: seq<Entry>, place: nat, e: Entry)
    requires InOrder(es) && place <= |es|
    requires place > 0 ==> es[place - 1].createdAt <= e.createdAt
    requires place < |es| ==> e.createdAt <= es[place].createdAt
    ensures InOrder(Insert(es, place, e))
  {
    var all := Insert(es, place, e);
    assert forall i :: 0 <= i < place ==> all[i] == es[i] && es[i].createdAt <= e.createdAt;
    assert forall i :: place < i < |all| ==> all[i] == es[i - 1] && e.createdAt <= es[i - 1].createdAt;
  }

  lemma InsertReads(rows: multiset<Entry>, es: seq<Entry>, place: nat, e: Entry)
    requires Reads(rows, es) && place <= |es|
    requires place > 0 ==> es[place - 1].createdAt <= e.createdAt
    requires place < |es| ==> e.createdAt <= es[place].createdAt
    ensures Reads(rows + multiset{e}, Insert(es, place, e))
  {
    hide Insert, InOrder;
    InsertMultiset(es, place, e);
    InsertInOrder(es, place, e);
  }

  /** Two neighbours exchanged: the second one's digest would have to fit two different predecessors. */
  lemma SwapRejected(h: Hash, es: seq<Entry>, i: nat)
    requires GivesDigests(h) && Accepts(h, es) && AllWellNamed(es) && i + 1 < |es|
    ensures Collision(h) || !Accepts(h, es[i := es[i + 1]][i + 1 := es[i]])
  {
    hide Accepts, RowMessage, GivesDigests, Collision;
    var all := es[i := es[i + 1]][i + 1 := es[i]];
    if Accepts(h, all) {
      var y := es[i + 1];
      assert Before(all, i) == Before(es, i);
      DigestBefore(h, all, i + 1);
      DigestBefore(h, es, i + 2);
      DigestBefore(h, es, i + 1);
      DigestBefore(h, es, i);
      EqualDigests(h, y, Before(es, i + 1), y, Before(es, i));
      DigestsDiffer(h, es, i, i + 1);
    }
  }

  /** Given one accepted order: all are accepted exactly when all creation times differ, or there is a collision. */
  lemma SureIffStrict(h: Hash, rows: multiset<Entry>, es: seq<Entry>)
    requires GivesDigests(h) && Reads(rows, es) && Accepts(h, es) && AllWellNamed(es)
    ensures Collision(h) || (SurelyAccepted(h, rows) <==> Strict(es))
  {
    hide Accepts, GivesDigests, Collision, AllWellNamed, Strict, Reads, SurelyAccepted;
    if Strict(es) {
      StrictIsSure(h, rows, es);
    } else {
      TieIsRejected(h, rows, es);
    }
  }

  lemma StrictIsSure(h: Hash, rows: multiset<Entry>, es: seq<Entry>)
    requires Reads(rows, es) && Accepts(h, es) && Strict(es)
    ensures SurelyAccepted(h, rows)
  {
    hide Accepts, Strict, InOrder;
    forall es' | Reads(rows, es')
      ensures Accepts(h, es')
    {
      StrictOrderIsUnique(es, es');
    }
  }

  lemma TieIsRejected(h: Hash, rows: multiset<Entry>, es: seq<Entry>)
    requires GivesDigests(h) && Reads(rows, es) && Accepts(h, es) && AllWellNamed(es) && !Strict(es)
    ensures Collision(h) || !SurelyAccepted(h, rows)
  {
    hide Accepts, GivesDigests, Collision, AllWellNamed, Strict, SurelyAccepted;
    TieOf(es);
    var i :| 0 <= i < |es| - 1 && es[i].createdAt == es[i + 1].createdAt;
    SwapRejected(h, es, i);
    SwapReads(rows, es, i);
    if !Accepts(h, es[i := es[i + 1]][i + 1 := es[i]]) {
      OneRejectedOrder(h, rows, es[i := es[i + 1]][i + 1 := es[i]]);
    }
  }

  lemma SwapReads(rows: multiset<Entry>, es: seq<Entry>, i: nat)
    requires Reads(rows, es) && i + 1 < |es| && es[i].createdAt == es[i + 1].createdAt
    ensures Reads(rows, es[i := es[i + 1]][i + 1 := es[i]])
  {
  }

  lemma TieOf(es: seq<Entry>)
    requires InOrder(es) && !Strict(es)
    ensures exists i :: 0 <= i < |es| - 1 && es[i].createdAt == es[i + 1].createdAt
  {
    var i, j :| 0 <= i < j < |es| && es[i].createdAt >= es[j].createdAt;
    assert es[i].createdAt <= es[i + 1].createdAt;
    assert i + 1 < j ==> es[i + 1].createdAt <= es[j].createdAt;
  }

  /**
   Serialised appends: onto rows with distinct times that verify, a further row leaves a trail that verifies
   in whatever order it is read exactly when it is strictly later than all of them, or there is a collision.
   */
  lemma AppendSure(h: Hash, rows: multiset<Entry>, es: seq<Entry>, ev: Event)
    requires GivesDigests(h) && Reads(rows, es) && Strict(es) && Accepts(h, es) && AllWellNamed(es)
    requires BAR !in ev.paymentId && BAR !in ev.eventType
    ensures Collision(h) || (SurelyAccepted(h, rows + multiset{Chained(h, ev, Latest(es))}) <==> Later(ev, es))
  {
    hide Accepts, GivesDigests, Collision, SurelyAccepted, ComputeChecksum, Latest;
    var e := Chained(h, ev, Latest(es));
    if Later(ev, es) {
      InsertReads(rows, es, |es|, e);
      AppendAccepted(h, es, |es|, ev);
      assert Insert(es, |es|, e) == es + [e];
      SureIffStrict(h, rows + multiset{e}, es + [e]);
    } else {
      var place := FirstNotBefore(es, ev.createdAt);
      InsertReads(rows, es, place, e);
      AppendAccepted(h, es, place, ev);
      if !Accepts(h, Insert(es, place, e)) {
        OneRejectedOrder(h, rows + multiset{e}, Insert(es, place, e));
      }
    }
  }

  lemma OneRejectedOrder(h: Hash, rows: multiset<Entry>, es: seq<Entry>)
    requires Reads(rows, es) && !Accepts(h, es)
    ensures !SurelyAccepted(h, rows)
  {
  }

  /** Where a row of time `at` goes before all rows that are not earlier. */
  function FirstNotBefore(es: seq<Entry>, at: int): (place: nat)
    requires InOrder(es)
    ensures place <= |es|
    ensures place > 0 ==> es[place - 1].createdAt <= at
    ensures place < |es| ==> at <= es[place].createdAt
    ensures place == |es| <==> forall e <- es :: e.createdAt < at
  {
    if es == [] then 0
    else if es[0].createdAt >= at then 0
    else 1 + FirstNotBefore(es[1..], at)
  }

  lemma NothingRead()
    ensures InOrder([])
  {
  }

  /** The rows of one payment. */
  class AuditLogRepository {
    const h: Hash
    var rows: multiset<Entry>

    constructor (h: Hash)
      ensures this.h == h && rows == multiset{}
    {
      this.h := h;
      rows := multiset{};
    }

    /** Somewhere among the rows of the same instant. */
    static method PlaceFor(es: seq<Entry>, at: int) returns (place: nat)
      requires InOrder(es)
      ensures place <= |es|
      ensures place > 0 ==> es[place - 1].createdAt <= at
      ensures place < |es| ==> at <= es[place].createdAt
    {
      place := FirstNotBefore(es, at);
      var passed: nat := *;
      while passed > 0 && place < |es| && es[place].createdAt == at
        invariant place <= |es|
        invariant place > 0 ==> es[place - 1].createdAt <= at
        invariant place < |es| ==> at <= es[place].createdAt
      {
        place, passed := place + 1, passed - 1;
      }
    }

    /** `get_payment_history`: one of the orders that `created_at` allows. */
    method GetPaymentHistory() returns (es: seq<Entry>)
      ensures Reads(rows, es)
    {
      hide Insert, InOrder;
      es := [];
      NothingRead();
      var rest := rows;
      while rest != multiset{}
        invariant rest <= rows && multiset(es) == rows - rest && InOrder(es)
        decreases |rest|
      {
        var e :| e in rest;
        var place := PlaceFor(es, e.createdAt);
        InsertMultiset(es, place, e);
        InsertInOrder(es, place, e);
        es := Insert(es, place, e);
        rest := rest - multiset{e};
      }
    }

    /** The row chains to the last row of one query; `createdAt` is the server's clock, which need not move forward. */
    method Append(ev: Event) returns (entry: Entry)
      modifies this`rows
      ensures rows == old(rows) + multiset{entry}
      ensures exists es: seq<Entry> :: Reads(old(rows), es) &&
                Records(h, entry, ev, if es == [] then None else Some(es[|es| - 1].checksum))
      ensures entry.previousChecksum == None <==> old(rows) == multiset{}
      ensures forall es :: Reads(old(rows), es) && Strict(es) && Verifiable(h, es) && WellNamed(entry) ==>
                Collision(h) || (SurelyAccepted(h, rows) <==> Later(ev, es))
    {
      hide Verifiable, Collision, ComputeChecksum, Later, Records;
      var es := GetPaymentHistory();
      var previous := if es == [] then None else Some(es[|es| - 1].checksum);
      entry := Chained(h, ev, previous);
      ChainedRecords(h, ev, previous);
      if Strict(es) && Verifiable(h, es) && WellNamed(entry) {
        AppendVerifiable(h, rows, es, ev);
      }
      forall es' | Reads(rows, es') && Strict(es')
        ensures es' == es
      {
        StrictOrderIsUnique(es', es);
      }
      rows := rows + multiset{entry};
    }

    /** Tells of one order of the rows whether every checksum fits. */
    method VerifyChainIntegrity() returns (intact: bool, es: seq<Entry>)
      ensures Reads(rows, es)
      ensures intact <==> Accepts(h, es)
      ensures intact <==> forall i :: 0 <= i < |es| ==> SealedInPlace(h, es, i)
    {
      hide Message, Accepts, Before;
      es := GetPaymentHistory();
      NothingToCheck(h);
      FirstRow(es);
      var previous: Option<string> := None;
      for i := 0 to |es|
        invariant TextOr(previous) == Before(es, i)
        invariant Accepts(h, es[..i])
      {
        var entry := es[i];
        var expected := ComputeChecksum(h, entry.paymentId, entry.eventType, TextOr(entry.payload), previous);
        OneMoreRow(h, es, i);
        if entry.checksum != expected {
          AcceptsIff(h, es);
          return false, es;
        }
        previous := Some(entry.checksum);
      }
      assert es[..|es|] == es;
      AcceptsIff(h, es);
      return true, es;
    }
  }

  /** Rows that verification accepts in this order, by names without a delimiter and a hash that gives digests. */
  ghost predicate Verifiable(h: Hash, es: seq<Entry>) {
    GivesDigests(h) && Accepts(h, es) && AllWellNamed(es)
  }

  lemma AppendVerifiable(h: Hash, rows: multiset<Entry>, es: seq<Entry>, ev: Event)
    requires Verifiable(h, es) && Reads(rows, es) && Strict(es) && BAR !in ev.paymentId && BAR !in ev.eventType
    ensures Collision(h) || (SurelyAccepted(h, rows + multiset{Chained(h, ev, Latest(es))}) <==> Later(ev, es))
  {
    AppendSure(h, rows, es, ev);
  }

  lemma FirstRow(es: seq<Entry>)
    ensures Before(es, 0) == ""
  {
  }

  /** A row whose checksum is wrong condemns the history; one whose checksum is right extends what is accepted. */
  lemma OneMoreRow(h: Hash, es: seq<Entry>, i: nat)
    requires i < |es| && Accepts(h, es[..i])
    ensures Before(es, i + 1) == es[i].checksum
    ensures es[i].checksum == h(RowMessage(es[i], Before(es, i))) <==> Accepts(h, es[..i + 1])
    ensures es[i].checksum != h(RowMessage(es[i], Before(es, i))) ==> !Accepts(h, es)
  {
    hide Message;
    assert es[..i + 1] == es[..i] + [es[i]];
    assert Before(es[..i], i) == Before(es, i) == Before(es[..i + 1], i);
    if es[i].checksum == h(RowMessage(es[i], Before(es, i))) {
      Extend(h, es[..i], es[i]);
    }
  }

  // ----- Sanitising payloads ----------------------------------------------------------------------

  /** What a payload may hold. */
  datatype Json =
    | Text(text: string)
    | Number(number: int)
    | Flag(flag: bool)
    | Null
    | List(items: seq<Json>)
    | Object(fields: map<string, Json>)

  const SENSITIVE: set<string> := {"SecurityCredential", "Password", "password", "access_token", "token", "secret"}
  const REDACTED := Text("***REDACTED***")

  predicate LooksLikePhone(v: Json) {
    v.Text? && |v.text| == 12 && "254" <= v.text
  }

  /** What stands in for a value that is hidden. */
  function Masked(v: Json): Json
    requires LooksLikePhone(v)
  {
    Text(v.text[..4] + "****" + v.text[8..])
  }

  function SanitisedValue(k: string, v: Json): Json {
    if k in SENSITIVE then REDACTED
    else if LooksLikePhone(v) then Masked(v)
    else v
  }

  /** Fills the result key by key, as the source's loop does. */
  method Sanitise(payload: map<string, Json>) returns (result: map<string, Json>)
    ensures result.Keys == payload.Keys
    ensures forall k <- payload.Keys :: result[k] == SanitisedValue(k, payload[k])
    ensures forall k <- payload.Keys ::
              k in {"SecurityCredential", "Password", "password", "access_token", "token", "secret"} ==>
                result[k] == Text("***REDACTED***")
    ensures forall k <- payload.Keys ::
              k !in {"SecurityCredential", "Password", "password", "access_token", "token", "secret"} ==>
                match payload[k]
                case Text(t) =>
                  result[k] == Text(if |t| == 12 && t[..3] == "254" then t[..4] + "****" + t[8..] else t)
                case v => result[k] == v
  {
    result := map[];
    var todo := payload.Keys;
    while todo != {}
      invariant todo <= payload.Keys && result.Keys == payload.Keys - todo
      invariant forall k <- result.Keys :: result[k] == SanitisedValue(k, payload[k])
    {
      var k :| k in todo;
      result := result[k := SanitisedValue(k, payload[k])];
      todo := todo - {k};
    }
  }

  /**
   Sanitising again changes nothing; a sensitive value and the four masked digits of a phone number leave
   no trace; the other digits, and every other value, are kept.
   */
  lemma SanitisedIsFinal(k: string, v: Json, w: Json)
    ensures k !in SENSITIVE && LooksLikePhone(v) ==>
              var t := SanitisedValue(k, v).text;
              |t| == 12 && t[..4] == v.text[..4] && t[4..8] == "****" && t[8..] == v.text[8..]
    ensures k !in SENSITIVE && !LooksLikePhone(v) ==> SanitisedValue(k, v) == v
    ensures SanitisedValue(k, SanitisedValue(k, v)) == SanitisedValue(k, v)
    ensures k in SENSITIVE ==> SanitisedValue(k, v) == SanitisedValue(k, w)
    ensures LooksLikePhone(v) && LooksLikePhone(w) && v.text[..4] == w.text[..4] && v.text[8..] == w.text[8..]
            ==> SanitisedValue(k, v) == SanitisedValue(k, w)
  {
    if k !in SENSITIVE && LooksLikePhone(v) {
      var masked := v.text[..4] + "****" + v.text[8..];
      assert masked[..4] == v.text[..4] && masked[8..] == v.text[8..];
      assert masked[..3] == v.text[..3];
      assert masked == masked[..4] + "****" + masked[8..];
    }
  }

  /** Value `w` can be read in `v`, at whatever depth. */
  ghost predicate Shows(v: Json, w: Json) {
    v == w ||
    match v
    case List(items) => exists i :: 0 <= i < |items| && Shows(items[i], w)
    case Object(fields) => exists k :: k in fields && Shows(fields[k], w)
    case _ => false
  }

  /**
   What survives sanitising, exactly: only a sensitive key at the top level, or a phone number that stands there
   as text, hides anything. Whatever else shows in a value still shows, nested secrets and numbers included.
   */
  lemma SurvivesIff(k: string, v: Json, w: Json)
    ensures Shows(SanitisedValue(k, v), w) <==>
              if k in SENSITIVE then w == REDACTED
              else if LooksLikePhone(v) then w == Masked(v)
              else Shows(v, w)
  {
  }

  /** So a secret in a nested object, and a phone number sent as a number, are written to the trail as they came. */
  lemma NestedSecretsSurvive(k: string, inner: string, secret: string, phone: int)
    requires k !in SENSITIVE
    ensures inner in SENSITIVE ==> Shows(SanitisedValue(k, Object(map[inner := Text(secret)])), Text(secret))
    ensures Shows(SanitisedValue(k, Number(phone)), Number(phone))
  {
    var v := Object(map[inner := Text(secret)]);
    assert inner in v.fields && Shows(v.fields[inner], Text(secret));
  }
}
