/**
 * A stand-in for `jsonwebtoken`'s `sign`/`verify`.  A token is a string that encodes which
 * secret signed it, the issue time (`iat`, in whole seconds, as `jsonwebtoken` adds it) and
 * the payload.  The encoding is injective and parseable, so verifying a token under the secret
 * that signed it gives back its payload, and verifying it under the other secret fails.
 * The cryptographic signature itself, expiry and unforgeability are not modelled.
 */
module Jwt {
  import opened Common

  /** The two secrets of the configuration: ACCESS_TOKEN_SECRET and REFRESH_TOKEN_SECRET. */
  datatype SecretKind = AccessSecret | RefreshSecret

  /** The profile part of an access token's payload. */
  datatype Profile = Profile(email: string, username: string, fullName: string)

  /** A token payload: `_id`, and for access tokens also email, username and full name. */
  datatype Claims = Claims(id: UserId, profile: Option<Profile>)

  predicate IsDigit(c: char) {
    '0' <= c <= '9'
  }

  predicate AllDigits(s: string) {
    forall i :: 0 <= i < |s| ==> IsDigit(s[i])
  }

  function DigitChar(d: nat): (c: char)
    requires d < 10
    ensures IsDigit(c)
  {
    ('0' as int + d) as char
  }

  function DigitValue(c: char): (d: nat)
    requires IsDigit(c)
    ensures d < 10
  {
    c as int - '0' as int
  }

  /** The decimal digits of `n`, most significant first. */
  function NatToDigits(n: nat): (r: string)
    ensures r != [] && AllDigits(r)
  {
    if n < 10 then [DigitChar(n)] else NatToDigits(n / 10) + [DigitChar(n % 10)]
  }

  /** The number a string of decimal digits denotes. */
  function DigitsValue(s: string): nat
    requires AllDigits(s)
  {
    if s == [] then 0 else 10 * DigitsValue(s[..|s| - 1]) + DigitValue(s[|s| - 1])
  }

  lemma {:induction false} DigitsValueOfNat(n: nat)
    ensures DigitsValue(NatToDigits(n)) == n
  {
    if n >= 10 {
      var d := NatToDigits(n);
      assert d[..|d| - 1] == NatToDigits(n / 10);
      DigitsValueOfNat(n / 10);
    }
  }

  /** Length of the longest prefix of `s` made of digits. */
  function DigitRun(s: string): (k: nat)
    ensures k <= |s| && AllDigits(s[..k])
    ensures k < |s| ==> !IsDigit(s[k])
  {
    if s != [] && IsDigit(s[0]) then 1 + DigitRun(s[1..]) else 0
  }

  lemma {:induction false} DigitRunOfConcat(d: string, rest: string)
    requires AllDigits(d)
    requires rest == [] || !IsDigit(rest[0])
    ensures DigitRun(d + rest) == |d|
  {
    if d != [] {
      assert (d + rest)[1..] == d[1..] + rest;
      DigitRunOfConcat(d[1..], rest);
    }
  }

  /** A number written in decimal and terminated by a dot. */
  function EncodeNat(n: nat): string {
    NatToDigits(n) + "."
  }

  function DecodeNat(s: string): Option<(nat, string)> {
    var k := DigitRun(s);
    if k == 0 || k == |s| || s[k] != '.' then None else Some((DigitsValue(s[..k]), s[k + 1..]))
  }

  lemma DecodeEncodeNat(n: nat, rest: string)
    ensures DecodeNat(EncodeNat(n) + rest) == Some((n, rest))
  {
    var d := NatToDigits(n);
    var s := EncodeNat(n) + rest;
    assert s == d + ("." + rest);
    DigitRunOfConcat(d, "." + rest);
    assert s[..|d|] == d;
    assert s[|d| + 1..] == rest;
    DigitsValueOfNat(n);
  }

  /** A string prefixed by its length, so that any characters may occur in it. */
  function EncodeText(t: string): string {
    EncodeNat(|t|) + t
  }

  function DecodeText(s: string): Option<(string, string)> {
    match DecodeNat(s)
    case None => None
    case Some((n, r)) => if n <= |r| then Some((r[..n], r[n..])) else None
  }

  lemma DecodeEncodeText(t: string, rest: string)
    ensures DecodeText(EncodeText(t) + rest) == Some((t, rest))
  {
    assert EncodeText(t) + rest == EncodeNat(|t|) + (t + rest);
    DecodeEncodeNat(|t|, t + rest);
    assert (t + rest)[..|t|] == t;
    assert (t + rest)[|t|..] == rest;
  }

  function EncodeClaims(c: Claims): string {
    EncodeNat(c.id) +
    match c.profile
    case None => "-"
    case Some(p) => "+" + EncodeProfile(p)
  }

  function DecodeProfile(s: string): Option<Profile> {
    match DecodeText(s)
    case None => None
    case Some((email, r1)) =>
      match DecodeText(r1)
      case None => None
      case Some((username, r2)) =>
        match DecodeText(r2)
        case None => None
        case Some((fullName, r3)) => if r3 == [] then Some(Profile(email, username, fullName)) else None
  }

  function DecodeClaims(s: string): Option<Claims> {
    match DecodeNat(s)
    case None => None
    case Some((id, r)) =>
      if r == "-" then Some(Claims(id, None))
      else if r != [] && r[0] == '+' then
        match DecodeProfile(r[1..])
        case None => None
        case Some(p) => Some(Claims(id, Some(p)))
      else None
  }

  function EncodeProfile(p: Profile): string {
    EncodeText(p.email) + EncodeText(p.username) + EncodeText(p.fullName)
  }

  lemma DecodeEncodeProfile(p: Profile)
    ensures DecodeProfile(EncodeProfile(p)) == Some(p)
  {
    var r3 := EncodeText(p.fullName);
    var r2 := EncodeText(p.username) + r3;
    assert EncodeProfile(p) == EncodeText(p.email) + r2;
    DecodeEncodeText(p.email, r2);
    DecodeEncodeText(p.username, r3);
    DecodeEncodeText(p.fullName, []);
    assert EncodeText(p.fullName) + [] == r3;
  }

  lemma DecodeEncodeClaims(c: Claims)
    ensures DecodeClaims(EncodeClaims(c)) == Some(c)
  {
    match c.profile
    case None =>
      DecodeEncodeNat(c.id, "-");
    case Some(p) =>
      var r1 := EncodeProfile(p);
      var r := "+" + r1;
      assert EncodeClaims(c) == EncodeNat(c.id) + r;
      DecodeEncodeNat(c.id, r);
      assert r[0] == '+' && r != "-";
      assert r[1..] == r1;
      DecodeEncodeProfile(p);
      assert DecodeProfile(r[1..]) == Some(p);
  }

  function KindTag(k: SecretKind): char {
    match k
    case AccessSecret => 'A'
    case RefreshSecret => 'R'
  }

  /** `jwt.verify(token, secret)`: the payload, or `None` when verification throws. */
  function Verify(token: string, k: SecretKind): (r: Option<Claims>)
    ensures r.Some? ==> token != [] && token[0] == KindTag(k)
  {
    if token == [] || token[0] != KindTag(k) then None
    else
      match DecodeNat(token[1..])
      case None => None
      case Some((_, rest)) => DecodeClaims(rest)
  }

  /** The issue time a token carries, if it is well formed. */
  function IssuedAt(token: string): Option<nat> {
    if token == [] then None
    else
      match DecodeNat(token[1..])
      case None => None
      case Some((iat, _)) => Some(iat)
  }

  /** `jwt.sign(claims, secret)` at second `iat`.  Verifying under the same secret yields the
      payload back; verifying under the other secret fails. */
  function Sign(c: Claims, k: SecretKind, iat: nat): (token: string)
    ensures Verify(token, k) == Some(c)
    ensures forall other :: other != k ==> Verify(token, other) == None
    ensures IssuedAt(token) == Some(iat)
  {
    var token := [KindTag(k)] + EncodeNat(iat) + EncodeClaims(c);
    assert token[1..] == EncodeNat(iat) + EncodeClaims(c);
    DecodeEncodeNat(iat, EncodeClaims(c));
    DecodeEncodeClaims(c);
    token
  }

  /** Different payloads, secrets or issue seconds give different tokens; equal ones give equal
      tokens, which is why a token re-issued within the same second repeats the previous one. */
  lemma SignInjective(c1: Claims, k1: SecretKind, iat1: nat, c2: Claims, k2: SecretKind, iat2: nat)
    ensures Sign(c1, k1, iat1) == Sign(c2, k2, iat2) <==> c1 == c2 && k1 == k2 && iat1 == iat2
  {
    if Sign(c1, k1, iat1) == Sign(c2, k2, iat2) {
      assert Verify(Sign(c1, k1, iat1), k1) == Some(c1);
      assert IssuedAt(Sign(c1, k1, iat1)) == Some(iat1);
    }
  }
}
