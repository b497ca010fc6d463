/** The JSON Web Token the server issues at login and every later request
    presents: its payload, its lifetime, and where the payload sits in the compact
    serialisation (section 3 of RFC 7519, section 7.1 of RFC 7515). Signing,
    verification and base64 decoding are left to oracles passed in by callers. */
module Jwt {
  import opened Js

  /** The decoded payload: the six identity claims the server puts in, and the
      registered claims `iat` and `exp` (seconds) that signing adds. */
  datatype Payload = Payload(
    email: string,
    firstName: string,
    lastName: string,
    role: string,
    isDisabled: bool,
    isEmailVerified: bool,
    iat: Option<int>,
    exp: Option<int>)

  /** `expiresIn: '1h'`, in seconds. */
  const OneHour: int := 3600

  /** The compact serialisation: header, payload and signature segments joined by dots. */
  function Compact(header: string, payload: string, signature: string): string {
    header + "." + payload + "." + signature
  }

  /** `token.split('.')[1]`, absent when the token has no dot. */
  function PayloadSegment(token: string): Option<string> {
    var parts := Split(token, '.');
    if |parts| >= 2 then Some(parts[1]) else None
  }

  /** The payload segment of a compact token is its second segment, whatever the signature holds. */
  lemma CompactPayloadSegment(header: string, payload: string, signature: string)
    requires '.' !in header && '.' !in payload
    ensures PayloadSegment(Compact(header, payload, signature)) == Some(payload)
  {
    var rest := payload + "." + signature;
    assert Compact(header, payload, signature) == header + ['.'] + rest;
    SplitAtFirst(header, '.', rest);
    assert rest == payload + ['.'] + signature;
    SplitAtFirst(payload, '.', signature);
  }
}
