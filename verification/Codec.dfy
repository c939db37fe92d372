/**
 The pieces receipt outcomes are printed from: colon-separated fields, identifiers, integers.
 */
module Codec {
  import opened Wrappers

  // ---------- fields ----------

  predicate NoColon(s: string) {
    forall i | 0 <= i < |s| :: s[i] != ':'
  }

  function Join(fields: seq<string>): string
    requires fields != []
  {
    if |fields| == 1 then fields[0] else fields[0] + ":" + Join(fields[1..])
  }

  /** The length of the text before the first colon. */
  function UpToColon(s: string): (n: nat)
    ensures n <= |s| && NoColon(s[..n]) && (n < |s| ==> s[n] == ':')
  {
    if s == [] || s[0] == ':' then 0
    else
      var n := 1 + UpToColon(s[1..]);
      assert forall i | 0 <= i < n :: s[i] != ':' by {
        forall i | 0 <= i < n
          ensures s[i] != ':'
        {
          assert i > 0 ==> s[1..][..n - 1][i - 1] == s[i];
        }
      }
      n
  }

  /** Split at no more than `most` colons. */
  function Split(s: string, most: nat): (fields: seq<string>)
    ensures fields != []
    decreases most
  {
    var n := UpToColon(s);
    if most == 0 || n == |s| then [s] else [s[..n]] + Split(s[n + 1..], most - 1)
  }

  lemma {:induction false} ColonAfter(head: string, rest: string)
    requires NoColon(head)
    ensures UpToColon(head + ":" + rest) == |head|
  {
    if head != [] {
      ColonAfter(head[1..], rest);
      assert (head + ":" + rest)[1..] == head[1..] + ":" + rest;
    }
  }

  lemma SplitHead(head: string, rest: string, most: nat)
    requires NoColon(head) && most > 0
    ensures Split(head + ":" + rest, most) == [head] + Split(rest, most - 1)
  {
    ColonAfter(head, rest);
    var s := head + ":" + rest;
    assert s[..|head|] == head && s[|head| + 1..] == rest;
  }

  /** Splitting undoes joining when only the last field may contain a colon. */
  lemma {:induction false} SplitJoin(fields: seq<string>)
    requires fields != [] && forall i | 0 <= i < |fields| - 1 :: NoColon(fields[i])
    ensures Split(Join(fields), |fields| - 1) == fields
  {
    if |fields| > 1 {
      SplitHead(fields[0], Join(fields[1..]), |fields| - 1);
      SplitJoin(fields[1..]);
    }
  }

  // ---------- identifiers ----------

  predicate Nibbles(u: seq<nat>) {
    forall i | 0 <= i < |u| :: u[i] < 16
  }

  type Uuid = u: seq<nat> | |u| == 32 && Nibbles(u) witness seq(32, _ => 0)

  function HexChar(n: nat): (c: char)
    requires n < 16
    ensures HexValue(c) == Some(n) && c != '-' && c != ':' && c != '{' && c != '}'
  {
    if n < 10 then '0' + n as char else 'a' + (n - 10) as char
  }

  function HexValue(c: char): Option<nat> {
    if '0' <= c <= '9' then Some((c - '0') as nat)
    else if 'a' <= c <= 'f' then Some((c - 'a') as nat + 10)
    else if 'A' <= c <= 'F' then Some((c - 'A') as nat + 10)
    else None
  }

  function Hex(u: seq<nat>): (s: string)
    requires Nibbles(u)
    ensures |s| == |u| && forall i | 0 <= i < |u| :: s[i] == HexChar(u[i])
  {
    seq(|u|, i requires 0 <= i < |u| => HexChar(u[i]))
  }

  function PrintUuid(u: Uuid): string {
    Hex(u[..8]) + "-" + Hex(u[8..12]) + "-" + Hex(u[12..16]) + "-" + Hex(u[16..20]) + "-" + Hex(u[20..])
  }

  function WithoutDashes(s: string): string {
    if s == [] then []
    else (if s[0] == '-' then [] else [s[0]]) + WithoutDashes(s[1..])
  }

  function TrimBraces(s: string): string {
    var left := if s != [] && (s[0] == '{' || s[0] == '}') then TrimBraces(s[1..]) else s;
    if left != [] && (left[|left| - 1] == '{' || left[|left| - 1] == '}') then left[..|left| - 1] else left
  }

  function ParseUuid(s: string): Option<Uuid> {
    var digits := WithoutDashes(TrimBraces(s));
    if |digits| != 32 || exists i | 0 <= i < 32 :: HexValue(digits[i]) == None then None
    else Some(Values(digits))
  }

  function Values(digits: string): (u: seq<nat>)
    requires forall i | 0 <= i < |digits| :: HexValue(digits[i]).Some?
    ensures |u| == |digits| && Nibbles(u) && forall i | 0 <= i < |u| :: u[i] == HexValue(digits[i]).value
  {
    seq(|digits|, i requires 0 <= i < |digits| => HexValue(digits[i]).value)
  }

  lemma {:induction false} DashesSplit(a: string, b: string)
    ensures WithoutDashes(a + b) == WithoutDashes(a) + WithoutDashes(b)
  {
    if a == [] {
      assert a + b == b;
    } else {
      DashesSplit(a[1..], b);
      assert (a + b)[0] == a[0] && (a + b)[1..] == a[1..] + b;
    }
  }

  lemma {:induction false} NoDashes(s: string)
    requires forall i | 0 <= i < |s| :: s[i] != '-'
    ensures WithoutDashes(s) == s
  {
    if s != [] {
      NoDashes(s[1..]);
    }
  }

  lemma DashedHex(u: seq<nat>, rest: string)
    requires Nibbles(u)
    ensures WithoutDashes(Hex(u) + "-" + rest) == Hex(u) + WithoutDashes(rest)
  {
    NoDashes(Hex(u));
    DashesSplit(Hex(u) + "-", rest);
    DashesSplit(Hex(u), "-");
    assert WithoutDashes("-") == [];
  }

  lemma PrintedDigits(u: Uuid)
    ensures WithoutDashes(PrintUuid(u)) == Hex(u)
  {
    var a, b, c, d, e := u[..8], u[8..12], u[12..16], u[16..20], u[20..];
    var de := Hex(d) + "-" + Hex(e);
    var cde := Hex(c) + "-" + de;
    var bcde := Hex(b) + "-" + cde;
    assert PrintUuid(u) == Hex(a) + "-" + bcde;
    DashedHex(a, bcde);
    DashedHex(b, cde);
    DashedHex(c, de);
    DashedHex(d, Hex(e));
    NoDashes(Hex(e));
    assert Hex(a) + (Hex(b) + (Hex(c) + (Hex(d) + Hex(e)))) == Hex(u);
  }

  lemma PrintedUuidIsPlain(u: Uuid)
    ensures NoColon(PrintUuid(u)) && |PrintUuid(u)| == 36
    ensures TrimBraces(PrintUuid(u)) == PrintUuid(u)
  {
    var s := PrintUuid(u);
    assert s[0] == Hex(u[..8])[0] && s[|s| - 1] == Hex(u[20..])[11];
  }

  lemma UuidRoundTrip(u: Uuid)
    ensures ParseUuid(PrintUuid(u)) == Some(u)
  {
    PrintedUuidIsPlain(u);
    PrintedDigits(u);
    assert Values(Hex(u)) == u;
  }

  // ---------- integers ----------

  function Digit(n: nat): (c: char)
    requires n < 10
    ensures '0' <= c <= '9' && (c - '0') as nat == n
  {
    '0' + n as char
  }

  function PrintNat(n: nat): (s: string)
    ensures s != [] && forall i | 0 <= i < |s| :: '0' <= s[i] <= '9'
  {
    if n < 10 then [Digit(n)] else PrintNat(n / 10) + [Digit(n % 10)]
  }

  function PrintInt(n: int): string {
    if n < 0 then "-" + PrintNat(-n) else PrintNat(n)
  }

  function ParseNat(s: string): Option<nat> {
    if s == [] then None
    else
      var c := s[|s| - 1];
      if !('0' <= c <= '9') then None
      else if |s| == 1 then Some((c - '0') as nat)
      else
        match ParseNat(s[..|s| - 1])
        case None => None
        case Some(high) => Some(high * 10 + (c - '0') as nat)
  }

  function ParseInt(s: string): Option<int> {
    if s == [] then None
    else if s[0] == '-' || s[0] == '+' then
      match ParseNat(s[1..])
      case None => None
      case Some(n) =>
        Some(if s[0] == '-' then 0 - n else n)
    else
      match ParseNat(s)
      case None => None
      case Some(n) => Some(n)
  }

  lemma {:induction false} NatRoundTrip(n: nat)
    ensures ParseNat(PrintNat(n)) == Some(n)
  {
    if n >= 10 {
      NatRoundTrip(n / 10);
      var s := PrintNat(n);
      assert s[..|s| - 1] == PrintNat(n / 10);
    }
  }

  lemma IntRoundTrip(n: int)
    ensures ParseInt(PrintInt(n)) == Some(n) && NoColon(PrintInt(n))
  {
    hide PrintNat, ParseNat;
    if n < 0 {
      NatRoundTrip(-n);
      assert PrintInt(n)[1..] == PrintNat(-n);
    } else {
      NatRoundTrip(n);
    }
  }
}
