/** server/internal/security/token.go: what a token or a device proof says and when it is taken.
    A MAC or a signature is an ideal one: it can only be made with its key and is good only for
    the text it was made for. */
module Token {
  import opened Wrappers
  import opened Types
  import opened Keys

  const ISSUER := "muiltdesk"
  const AUDIENCE := "muiltdesk-api"
  const HEADER := "{\"alg\":\"HS256\",\"typ\":\"JWT\"}"
  const ACCESS_LIFETIME := 10 * MINUTE
  const ACCESS_HORIZON := 11 * MINUTE

  datatype Claims = Claims(subject: Id, expires: int, issuer: string, audience: string, version: nat)

  /** The second part of a token: the claims, or text that is not such a JSON object. */
  datatype Body = Body(claims: Claims) | Garbled(text: string)

  datatype Mac = Mac(key: string, header: string, body: Body) | ForgedMac(text: string)

  /** A token as presented; Malformed stands for a wrong number of parts, a part that is not
      base64, or more than 4096 bytes. */
  datatype AccessToken = AccessToken(header: string, body: Body, mac: Mac) | Malformed

  /** Seconds since the Unix epoch, rounded down. */
  function Unix(t: Time): int {
    t / SECOND
  }

  function Sign(key: string, user: Id, version: nat, now: Time): AccessToken {
    var body := Body(Claims(user, Unix(now + ACCESS_LIFETIME), ISSUER, AUDIENCE, version));
    AccessToken(HEADER, body, Mac(key, HEADER, body))
  }

  function Verify(key: string, token: AccessToken, now: Time): Option<Claims> {
    if token.Malformed? || token.header != HEADER then None
    else if token.mac != Mac(key, token.header, token.body) then None
    else if token.body.Garbled? then None
    else
      var c := token.body.claims;
      if c.subject == "" || c.issuer != ISSUER || c.audience != AUDIENCE then None
      else if c.expires <= Unix(now) || c.expires > Unix(now + ACCESS_HORIZON) then None
      else Some(c)
  }

  lemma UnixShift(t: Time, k: int)
    ensures Unix(t + k * SECOND) == Unix(t) + k
  {
  }

  /** A signed token is taken from a minute before to ten minutes after its signing second, and
      then says exactly what was signed. */
  lemma SignedWindow(key: string, user: Id, version: nat, t: Time, now: Time)
    ensures var v := Verify(key, Sign(key, user, version, t), now);
            && (v.Some? <==> user != "" && Unix(t) - 60 <= Unix(now) < Unix(t) + 600)
            && (v.Some? ==> v.value.subject == user && v.value.version == version)
  {
    UnixShift(t, 600);
    UnixShift(now, 660);
  }

  // ---------- device proofs ----------

  function DeviceMessage(method_: string, path: string, nonce: string): string {
    "MuiltDesk/v1\n" + method_ + "\n" + path + "\n" + nonce
  }

  datatype Signature = Signed(key: seq<nat>, message: string) | ForgedSignature(text: string)

  /** An ideal Ed25519 check, under the key that the text stands for. */
  predicate VerifyDevice(key: string, signature: Signature, method_: string, path: string, nonce: string) {
    KeyOf(key).Some? && signature == Signed(KeyOf(key).value, DeviceMessage(method_, path, nonce))
  }

  predicate OneLine(s: string) {
    forall i :: 0 <= i < |s| ==> s[i] != '\n'
  }

  function Joined(a: string, b: string, c: string): string {
    a + "\n" + b + "\n" + c
  }

  lemma JoinedIsInjective(a: string, b: string, c: string, a': string, b': string, c': string)
    requires OneLine(a) && OneLine(a') && OneLine(c) && OneLine(c')
    requires Joined(a, b, c) == Joined(a', b', c')
    ensures a == a' && b == b' && c == c'
  {
    var s := Joined(a, b, c);
    assert s[|a|] == '\n' && s[|a'|] == '\n';
    assert forall i :: 0 <= i < |a| ==> s[i] == a[i];
    assert forall i :: 0 <= i < |a'| ==> s[i] == a'[i];
    assert |a| == |a'|;
    assert s[|s| - |c| - 1] == '\n' && s[|s| - |c'| - 1] == '\n';
    SameEnd(s, c, c');
    assert s[|a| + 1..|s| - |c| - 1] == b && s[|a'| + 1..|s| - |c'| - 1] == b';
  }

  /** The last line of a text is determined by the text. */
  lemma SameEnd(s: string, c: string, c': string)
    requires OneLine(c) && OneLine(c') && |c| < |s| && |c'| < |s|
    requires s[|s| - |c| - 1] == '\n' && s[|s| - |c'| - 1] == '\n'
    requires s[|s| - |c|..] == c && s[|s| - |c'|..] == c'
    ensures c == c'
  {
    assert forall k :: |s| - |c| <= k < |s| ==> s[k] == c[k - (|s| - |c|)];
    assert forall k :: |s| - |c'| <= k < |s| ==> s[k] == c'[k - (|s| - |c'|)];
  }

  /** A proof is bound to its key, method, path and nonce. An HTTP method and a header value are
      single lines; the decoded path need not be. */
  lemma ProofIsBound(key: string, key': string, signature: Signature,
                     m: string, path: string, nonce: string, m': string, path': string, nonce': string)
    requires OneLine(m) && OneLine(m') && OneLine(nonce) && OneLine(nonce')
    requires VerifyDevice(key, signature, m, path, nonce)
    requires VerifyDevice(key', signature, m', path', nonce')
    ensures KeyOf(key) == KeyOf(key') && m == m' && path == path' && nonce == nonce'
  {
    var prefix := "MuiltDesk/v1\n";
    assert DeviceMessage(m, path, nonce) == prefix + Joined(m, path, nonce);
    assert DeviceMessage(m', path', nonce') == prefix + Joined(m', path', nonce');
    assert (prefix + Joined(m, path, nonce))[|prefix|..] == Joined(m, path, nonce);
    assert (prefix + Joined(m', path', nonce'))[|prefix|..] == Joined(m', path', nonce');
    JoinedIsInjective(m, path, nonce, m', path', nonce');
  }
}
