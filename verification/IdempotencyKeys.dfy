/**
  Idempotency-Key headers and the Redis keys they lead to.
*/
module IdempotencyKeys {

  /** An Idempotency-Key header: 8 to 128 characters of `[A-Za-z0-9_-]`. */
  predicate ValidKey(key: string) {
    8 <= |key| <= 128 && forall i | 0 <= i < |key| :: KeyChar(key[i])
  }

  predicate KeyChar(c: char) {
    'A' <= c <= 'Z' || 'a' <= c <= 'z' || '0' <= c <= '9' || c == '_' || c == '-'
  }

  /** The ASCII codes of hyphen, digits, capitals, underscore and small letters: the URL-safe alphabet of 64. */
  ghost predicate UrlSafe(code: int) {
    code == 45 || 48 <= code <= 57 || 65 <= code <= 90 || code == 95 || 97 <= code <= 122
  }

  ghost predicate HexDigit(c: char) { '0' <= c <= '9' || 'a' <= c <= 'f' || 'A' <= c <= 'F' }

  /** Hexadecimal digits in groups of 8, 4, 4, 4 and 12, with hyphens between (section 4 of RFC 9562). */
  ghost predicate IsUuid(key: string) {
    |key| == 36 && forall i | 0 <= i < 36 ::
      if i == 8 || i == 13 || i == 18 || i == 23 then key[i] == '-' else HexDigit(key[i])
  }

  /** Exactly the strings of 8 to 128 of these characters are keys; a UUID is one. */
  lemma KeysAre(key: string)
    ensures ValidKey(key) <==> 8 <= |key| <= 128 && forall i | 0 <= i < |key| :: UrlSafe(key[i] as int)
    ensures IsUuid(key) ==> ValidKey(key)
  {
    forall i | 0 <= i < |key| ensures KeyChar(key[i]) <==> UrlSafe(key[i] as int) { KeyCodes(key[i]); }
    if IsUuid(key) {
      forall i | 0 <= i < |key| ensures KeyChar(key[i]) { assert key[i] == '-' || HexDigit(key[i]); }
    }
  }

  lemma KeyCodes(c: char)
    ensures KeyChar(c) <==> UrlSafe(c as int)
  {
  }

  function RedisKey(scope: string, user: string, key: string): string {
    "idempotency:" + scope + ":" + user + ":" + key
  }

  predicate NoColon(s: string) { ':' !in s }

  /** Splitting a string at its last colon is unique. */
  lemma {:induction false} LastColon(x: string, y: string, u: string, v: string)
    requires NoColon(u) && NoColon(v) && x + ":" + u == y + ":" + v
    ensures x == y && u == v
  {
    var s := x + ":" + u;
    var s' := y + ":" + v;
    assert s[|x|] == ':' && s'[|y|] == ':';
    forall i | |x| < i < |s| ensures s[i] != ':' { assert s[i] == u[i - |x| - 1]; }
    forall i | |y| < i < |s'| ensures s'[i] != ':' { assert s'[i] == v[i - |y| - 1]; }
    assert |x| == |y|;
    assert x == s[..|x|] && y == s'[..|y|];
    assert u == s[|x| + 1..] && v == s'[|y| + 1..];
  }

  /** Scopes, users and keys never share a Redis key: user ids and valid keys hold no colon (scopes may). */
  lemma RedisKeysDistinct(scope: string, user: string, key: string, scope': string, user': string, key': string)
    requires ValidKey(key) && ValidKey(key') && NoColon(user) && NoColon(user')
    requires RedisKey(scope, user, key) == RedisKey(scope', user', key')
    ensures scope == scope' && user == user' && key == key'
  {
    LastColon("idempotency:" + scope + ":" + user, "idempotency:" + scope' + ":" + user', key, key');
    LastColon("idempotency:" + scope, "idempotency:" + scope', user, user');
    assert scope == ("idempotency:" + scope)[12..] && scope' == ("idempotency:" + scope')[12..];
  }
}
