/**
 Phone numbers as app/schemas/stk.py normalises them, whatever characters count as digits and white space.
 */
module Msisdn {
  import opened Basics

  /** The characters that `\d` and `\s` match; in Python they go far beyond ASCII. */
  datatype Classes = Classes(digit: char -> bool, space: char -> bool)

  /** What Unicode guarantees of them: the ASCII digits are digits, and no digit is also something else here. */
  ghost predicate Sane(cs: Classes) {
    && (forall c :: '0' <= c <= '9' ==> cs.digit(c))
    && (forall c :: cs.digit(c) ==> !cs.space(c) && c != '-' && c != '(' && c != ')')
  }

  predicate Separator(cs: Classes, c: char) {
    cs.space(c) || c == '-' || c == '(' || c == ')'
  }

  function Significant(cs: Classes, v: string): string {
    if v == "" then ""
    else if Separator(cs, v[0]) then Significant(cs, v[1..])
    else [v[0]] + Significant(cs, v[1..])
  }

  /** The digits as dialled: separators and one leading plus removed. */
  function Dialled(cs: Classes, v: string): string {
    var raw := Significant(cs, v);
    if "+" <= raw then raw[1..] else raw
  }

  /** The pattern 2547\d{8}|2541\d{8}. */
  predicate WellFormed(cs: Classes, s: string) {
    |s| == 12 && ("2547" <= s || "2541" <= s) && forall c <- s[4..] :: cs.digit(c)
  }

  /** What the three accepted prefixes are rewritten to. */
  function WithCountryCode(raw: string): Option<string> {
    if "254" <= raw then Some(raw)
    else if "0" <= raw && |raw| == 10 then Some("254" + raw[1..])
    else if |raw| == 9 then Some("254" + raw)
    else None
  }

  /** `normalise_phone`; None is the ValueError. */
  function Normalise(cs: Classes, v: string): Option<string> {
    var normalised := WithCountryCode(Dialled(cs, v));
    if normalised.Some? && WellFormed(cs, normalised.value) then normalised else None
  }

  // ----- What is accepted -------------------------------------------------------------------------

  /** A subscriber number: 7 or 1, then eight digits. */
  predicate National(cs: Classes, n: string) {
    |n| == 9 && (n[0] == '7' || n[0] == '1') && forall c <- n[1..] :: cs.digit(c)
  }

  /** 254, 0 or nothing, then a subscriber number. */
  predicate Spells(cs: Classes, dialled: string, n: string) {
    National(cs, n) && (dialled == "254" + n || dialled == "0" + n || dialled == n)
  }

  /** The grammar: the same behind a plus, or without one. */
  predicate Denotes(cs: Classes, text: string, n: string) {
    Spells(cs, text, n) || (text != "" && text[0] == '+' && Spells(cs, text[1..], n))
  }

  function LastNine(s: string): string {
    if |s| < 9 then s else s[|s| - 9..]
  }

  /** What is spelt determines the subscriber number: it is the last nine digits. */
  lemma SpellsLastNine(cs: Classes, dialled: string, n: string)
    requires Spells(cs, dialled, n)
    ensures n == LastNine(dialled)
  {
  }

  lemma WellFormedIff(cs: Classes, n: string)
    ensures WellFormed(cs, "254" + n) <==> National(cs, n)
  {
    var s := "254" + n;
    if |n| == 9 {
      assert s[4..] == n[1..];
      assert "2547" <= s <==> s[3] == '7';
      assert "2541" <= s <==> s[3] == '1';
    }
  }

  /** Whatever gets past the branches and the pattern was spelt in one of the three ways. */
  lemma BranchesSpell(cs: Classes, raw: string)
    requires WithCountryCode(raw).Some? && WellFormed(cs, WithCountryCode(raw).value)
    ensures exists n :: Spells(cs, raw, n)
  {
    hide WellFormed, National;
    if "254" <= raw {
      assert raw == "254" + raw[3..];
      WellFormedIff(cs, raw[3..]);
      assert Spells(cs, raw, raw[3..]);
    } else if "0" <= raw && |raw| == 10 {
      assert raw == "0" + raw[1..];
      WellFormedIff(cs, raw[1..]);
      assert Spells(cs, raw, raw[1..]);
    } else {
      WellFormedIff(cs, raw);
      assert Spells(cs, raw, raw);
    }
  }

  /** Each of the three spellings takes its own branch. */
  lemma SpellsBranches(cs: Classes, raw: string, n: string)
    requires Spells(cs, raw, n)
    ensures WithCountryCode(raw) == Some("254" + n) && WellFormed(cs, "254" + n)
  {
    hide WellFormed;
    WellFormedIff(cs, n);
    assert raw == "0" + n ==> raw[0] == '0' && raw[1..] == n;
    assert raw == n ==> raw[0] != '2' && raw[0] != '0';
  }

  lemma DialledIff(cs: Classes, v: string)
    ensures Normalise(cs, v).Some? <==> exists n :: Spells(cs, Dialled(cs, v), n)
    ensures forall n :: Spells(cs, Dialled(cs, v), n) ==>
              Normalise(cs, v) == Some("254" + n) && n == LastNine(Dialled(cs, v))
  {
    hide Dialled, WithCountryCode, WellFormed, LastNine;
    var raw := Dialled(cs, v);
    if Normalise(cs, v).Some? {
      BranchesSpell(cs, raw);
    }
    forall n | Spells(cs, raw, n)
      ensures n == LastNine(raw) && Normalise(cs, v) == Some("254" + n)
    {
      SpellsBranches(cs, raw, n);
      SpellsLastNine(cs, raw, n);
    }
  }

  /** No plus comes first in what is spelt, unless a plus is a digit. */
  lemma DenotesIff(cs: Classes, v: string, n: string)
    ensures Denotes(cs, Significant(cs, v), n) <==> Spells(cs, Dialled(cs, v), n)
    ensures Denotes(cs, Significant(cs, v), n) ==> n == LastNine(Significant(cs, v))
  {
    var text := Significant(cs, v);
    if Spells(cs, text, n) {
      assert text[0] == (if text == "254" + n then '2' else if text == "0" + n then '0' else n[0]);
    }
  }

  /**
   A number is accepted exactly when, separators removed, it is a plus or none, then 254, 0 or nothing, then a
   subscriber number; the result is 254 and that number, which is the last nine digits.
   */
  lemma AcceptedIff(cs: Classes, v: string)
    ensures Normalise(cs, v).Some? <==> exists n :: Denotes(cs, Significant(cs, v), n)
    ensures forall n :: Denotes(cs, Significant(cs, v), n) ==>
              Normalise(cs, v) == Some("254" + n) && n == LastNine(Significant(cs, v))
  {
    hide *;
    DialledIff(cs, v);
    if n :| Spells(cs, Dialled(cs, v), n) {
      DenotesIff(cs, v, n);
    }
    forall n
      ensures Denotes(cs, Significant(cs, v), n) <==> Spells(cs, Dialled(cs, v), n)
      ensures Denotes(cs, Significant(cs, v), n) ==> n == LastNine(Significant(cs, v))
    {
      DenotesIff(cs, v, n);
    }
  }

  /** A plus before a number that has none changes nothing. */
  lemma PlusIsOptional(cs: Classes, v: string)
    requires !("+" <= Significant(cs, v))
    ensures Normalise(cs, "+" + v) == Normalise(cs, v)
  {
    assert ("+" + v)[1..] == v;
    assert Significant(cs, "+" + v) == (if Separator(cs, '+') then "" else "+") + Significant(cs, v);
  }

  // ----- Separators -------------------------------------------------------------------------------

  lemma {:induction false} SignificantAppends(cs: Classes, u: string, v: string)
    ensures Significant(cs, u + v) == Significant(cs, u) + Significant(cs, v)
  {
    if u == "" {
      assert u + v == v;
    } else {
      SignificantAppends(cs, u[1..], v);
      assert (u + v)[1..] == u[1..] + v;
    }
  }

  predicate Separators(cs: Classes, gap: string) {
    forall c <- gap :: cs.space(c) || c in {'-', '(', ')'}
  }

  lemma {:induction false} NothingSignificant(cs: Classes, gap: string)
    requires Separators(cs, gap)
    ensures Significant(cs, gap) == ""
  {
    if gap != "" {
      assert gap[0] in gap && forall c <- gap[1..] :: c in gap;
      NothingSignificant(cs, gap[1..]);
    }
  }

  lemma {:induction false} AllSignificant(cs: Classes, s: string)
    requires forall c <- s :: !Separator(cs, c)
    ensures Significant(cs, s) == s
  {
    if s != "" {
      assert s[0] in s && forall c <- s[1..] :: c in s;
      AllSignificant(cs, s[1..]);
    }
  }

  /** Separators may stand anywhere, in any number. */
  lemma SeparatorsDoNotMatter(cs: Classes, u: string, gap: string, v: string)
    requires Separators(cs, gap)
    ensures Normalise(cs, u + gap + v) == Normalise(cs, u + v)
  {
    hide Separators, WithCountryCode, WellFormed;
    SignificantAppends(cs, u + gap, v);
    SignificantAppends(cs, u, gap);
    SignificantAppends(cs, u, v);
    NothingSignificant(cs, gap);
    assert Significant(cs, u) + "" + Significant(cs, v) == Significant(cs, u) + Significant(cs, v);
  }

  // ----- The canonical form -----------------------------------------------------------------------

  lemma CanonicalIsFixed(cs: Classes, n: string)
    requires Sane(cs) && National(cs, n)
    ensures Normalise(cs, "254" + n) == Some("254" + n)
  {
    var s := "254" + n;
    assert n == [n[0]] + n[1..];
    assert forall c <- s :: c in "254" || c == n[0] || c in n[1..];
    assert forall c <- s :: cs.digit(c);
    AllSignificant(cs, s);
    assert Denotes(cs, Significant(cs, s), n);
    AcceptedIff(cs, s);
  }

  /** The subscriber number of an accepted input. */
  lemma SubscriberNumber(cs: Classes, v: string) returns (n: string)
    requires Normalise(cs, v).Some?
    ensures Normalise(cs, v) == Some("254" + n) && National(cs, n) && n == LastNine(Significant(cs, v))
  {
    hide Normalise, LastNine, National, Significant;
    AcceptedIff(cs, v);
    n :| Denotes(cs, Significant(cs, v), n);
  }

  /** Normalising twice is normalising once: the results are fixed points. */
  lemma NormaliseIsIdempotent(cs: Classes, v: string)
    requires Sane(cs) && Normalise(cs, v).Some?
    ensures Normalise(cs, Normalise(cs, v).value) == Normalise(cs, v)
  {
    hide Normalise, National;
    var n := SubscriberNumber(cs, v);
    CanonicalIsFixed(cs, n);
  }

  /** Two accepted numbers agree exactly when, separators removed, their last nine digits do. */
  lemma AgreeIffLastNine(cs: Classes, u: string, v: string)
    requires Normalise(cs, u).Some? && Normalise(cs, v).Some?
    ensures Normalise(cs, u) == Normalise(cs, v) <==> LastNine(Significant(cs, u)) == LastNine(Significant(cs, v))
  {
    hide Normalise, National;
    var x := SubscriberNumber(cs, u);
    var y := SubscriberNumber(cs, v);
    assert ("254" + x)[3..] == x && ("254" + y)[3..] == y;
  }
}
