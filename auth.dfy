// validate_external_auth: a third party vouches for a user by presenting
// "::simpl-external-auth::" followed by the hex HMAC-SHA256 (RFC 2104) of the
// user's email under the shared secret, and the external branch of
// authenticate that trusts it.
//
// HMAC-SHA256 is the function parameter `mac` from (key, message) to its
// 32-byte digest; the UTF-8 encoding of key and message is folded into it.

module ExternalAuth {
  import opened Exceptions
  import opened Strings

  type Byte = x: int | 0 <= x < 256

  /** A SHA-256 sized digest. */
  type Digest = d: seq<Byte> | |d| == 32 witness seq(32, i => 0)

  const Marker := "::simpl-external-auth::"

  const HexDigits := "0123456789abcdef"

  predicate IsHex(c: char)
  {
    c in HexDigits
  }

  function HexValue(c: char): (v: nat)
    ensures v < 16
    ensures IsHex(c) ==> HexDigits[v] == c
  {
    if '0' <= c <= '9' then (c as int - '0' as int) as nat
    else if 'a' <= c <= 'f' then (c as int - 'a' as int + 10) as nat
    else 0
  }

  /** hexdigest(): two lowercase digits per byte, high nibble first. */
  function Hex(d: seq<Byte>): (r: string)
    ensures |r| == 2 * |d|
    ensures forall i :: 0 <= i < |r| ==> IsHex(r[i])
  {
    if d == [] then ""
    else [HexDigits[d[0] / 16], HexDigits[d[0] % 16]] + Hex(d[1..])
  }

  /** The bytes a hex text spells, two digits at a time. */
  function Unhex(s: string): (r: seq<Byte>)
    decreases |s|
  {
    if |s| < 2 then []
    else [HexValue(s[0]) * 16 + HexValue(s[1])] + Unhex(s[2..])
  }

  lemma HexDigitRoundTrip(n: nat)
    requires n < 16
    ensures HexValue(HexDigits[n]) == n
  {
    if n < 10 {
      assert HexDigits[n] == ('0' as int + n) as char;
    } else {
      assert HexDigits[n] == ('a' as int + n - 10) as char;
    }
  }

  /** The two digits of a byte read back as that byte. */
  lemma BytePairRoundTrip(b: Byte)
    ensures HexValue(HexDigits[b / 16]) * 16 + HexValue(HexDigits[b % 16]) == b
  {
    HexDigitRoundTrip(b / 16);
    HexDigitRoundTrip(b % 16);
  }

  lemma UnhexCons(x: char, y: char, rest: string)
    ensures Unhex([x, y] + rest) == [HexValue(x) * 16 + HexValue(y)] + Unhex(rest)
  {
    assert ([x, y] + rest)[2..] == rest;
  }

  lemma {:induction false} UnhexHex(d: seq<Byte>)
    ensures Unhex(Hex(d)) == d
  {
    if d != [] {
      var x, y := HexDigits[d[0] / 16], HexDigits[d[0] % 16];
      var rest := Hex(d[1..]);
      assert Hex(d) == [x, y] + rest;
      UnhexCons(x, y, rest);
      BytePairRoundTrip(d[0]);
      UnhexHex(d[1..]);
      var b: Byte := HexValue(x) * 16 + HexValue(y);
      assert Unhex(Hex(d)) == [b] + Unhex(rest);
      assert [b] + d[1..] == d;
    }
  }

  /** Distinct digests never share a hex text. */
  lemma HexInjective(a: seq<Byte>, b: seq<Byte>)
    requires Hex(a) == Hex(b)
    ensures a == b
  {
    UnhexHex(a);
    UnhexHex(b);
  }

  /** EXTERNAL_RE.match(value).group(1): the marker at the start, then the
      rest of the line; `$` also matches before one final newline, which is
      then not captured. */
  function ExternalMatch(value: string): (r: Option<string>)
    ensures r.Some? ==> StartsWith(value, Marker) && '\n' !in r.value
    ensures r.Some? ==> value == Marker + r.value || value == Marker + r.value + "\n"
  {
    if !StartsWith(value, Marker) then None
    else
      var rest := value[|Marker|..];
      assert value == Marker + rest;
      if '\n' !in rest then Some(rest)
      else if rest[|rest| - 1] == '\n' && '\n' !in rest[..|rest| - 1] then
        assert rest == rest[..|rest| - 1] + "\n";
        Some(rest[..|rest| - 1])
      else None
  }

  /** validate_external_auth(email, value) */
  function Validate(mac: (string, string) -> Digest, secret: string, email: string, value: string): bool
  {
    match ExternalMatch(value)
    case None => false
    case Some(hash) => hash == Hex(mac(secret, email))
  }

  /** The token a party holding the secret presents for `email`. */
  function Token(mac: (string, string) -> Digest, secret: string, email: string): string
  {
    Marker + Hex(mac(secret, email))
  }

  /** A value not starting with the marker is refused. */
  lemma NoMarkerIsRefused(mac: (string, string) -> Digest, secret: string, email: string, value: string)
    requires !StartsWith(value, Marker)
    ensures !Validate(mac, secret, email, value)
  {
  }

  /** The value is accepted exactly when it is the token, or the token
      followed by one newline. */
  lemma ValidateMeaning(mac: (string, string) -> Digest, secret: string, email: string, value: string)
    ensures Validate(mac, secret, email, value) <==>
      value == Token(mac, secret, email) || value == Token(mac, secret, email) + "\n"
  {
    var t := Token(mac, secret, email);
    var h := Hex(mac(secret, email));
    assert '\n' !in h by {
      forall i | 0 <= i < |h| ensures h[i] != '\n' { assert IsHex(h[i]); }
    }
    if value == t {
      assert StartsWith(value, Marker) && value[|Marker|..] == h;
    } else if value == t + "\n" {
      assert StartsWith(value, Marker);
      var rest := value[|Marker|..];
      assert rest == h + "\n";
      assert rest[..|rest| - 1] == h;
    }
  }

  /** An accepted suffix is exactly 64 lowercase hex digits, so the bare
      marker is refused. */
  lemma AcceptedSuffixIsDigest(mac: (string, string) -> Digest, secret: string, email: string, value: string)
    requires Validate(mac, secret, email, value)
    ensures var hash := ExternalMatch(value).value;
      |hash| == 64 && forall i :: 0 <= i < 64 ==> IsHex(hash[i])
    ensures !Validate(mac, secret, email, Marker)
  {
    assert Marker[|Marker|..] == "";
  }

  /** A token made for one email is accepted for another only when their
      MACs coincide. */
  lemma TokenBindsEmail(mac: (string, string) -> Digest, secret: string, email: string, other: string)
    requires Validate(mac, secret, other, Token(mac, secret, email))
    ensures mac(secret, email) == mac(secret, other)
  {
    ValidateMeaning(mac, secret, other, Token(mac, secret, email));
    var t := Token(mac, secret, email);
    assert Hex(mac(secret, email)) == t[|Marker|..] == Hex(mac(secret, other));
    HexInjective(mac(secret, email), mac(secret, other));
  }

  /** What authenticate answers a ticket carrying the marker: the ticket
      as the secret with the browser role, or a secret no one can know. */
  datatype Answer = Browser(secret: string) | Scrambled

  /** The external branch of ModelComponent.authenticate; None when the
      ticket lacks the marker and the games API is asked instead. */
  function AuthenticateExternal(mac: (string, string) -> Digest, secret: string, authid: string, ticket: string): (r: Option<Answer>)
  {
    if !StartsWith(ticket, Marker) then None
    else if Validate(mac, secret, authid, ticket) then Some(Browser(ticket))
    else Some(Scrambled)
  }

  /** The browser role is granted to exactly the token of the authid (or it
      with one trailing newline), and the ticket becomes the secret. */
  lemma AuthenticateExternalMeaning(mac: (string, string) -> Digest, secret: string, authid: string, ticket: string)
    ensures AuthenticateExternal(mac, secret, authid, ticket).Some? <==> StartsWith(ticket, Marker)
    ensures AuthenticateExternal(mac, secret, authid, ticket) == Some(Browser(ticket)) <==>
      ticket == Token(mac, secret, authid) || ticket == Token(mac, secret, authid) + "\n"
  {
    ValidateMeaning(mac, secret, authid, ticket);
    var t := Token(mac, secret, authid);
    if ticket == t || ticket == t + "\n" {
      assert ticket[..|Marker|] == Marker;
    }
  }
}
