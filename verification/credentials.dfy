/** Extraction of the caller's Publora API key from the inbound request
    headers (`getApiKey`). */
module Credentials {
  import opened Options

  /** Request headers by lower-case name, as Node.js presents them; a header
      that was not sent is absent from the map. */
  type Headers = map<string, string>

  const AuthorizationHeader: string := "authorization"
  const KeyHeader: string := "x-publora-key"
  const BearerPrefix: string := "Bearer "

  predicate StartsWith(s: string, prefix: string) {
    |prefix| <= |s| && s[..|prefix|] == prefix
  }

  /** The header's value, or `None` when it was not sent. */
  function Header(h: Headers, name: string): (r: Option<string>)
    ensures r.Some? <==> name in h
    ensures r.Some? ==> r.value == h[name]
  {
    if name in h then Some(h[name]) else None
  }

  /** The `Authorization: Bearer <key>` form is in use. Such a header is
      never empty, so the truthiness test before `startsWith` adds nothing,
      and it splits into the prefix and the token after it. */
  predicate HasBearer(h: Headers)
    ensures HasBearer(h) ==> Header(h, AuthorizationHeader).Some? && Header(h, AuthorizationHeader).value != ""
    ensures HasBearer(h) ==>
              && AuthorizationHeader in h && |BearerPrefix| <= |h[AuthorizationHeader]|
              && h[AuthorizationHeader] == BearerPrefix + h[AuthorizationHeader][|BearerPrefix|..]
  {
    AuthorizationHeader in h && StartsWith(h[AuthorizationHeader], BearerPrefix)
  }

  /** The text after "Bearer " when the authorization header carries that
      prefix; otherwise the `x-publora-key` header when it is non-empty;
      otherwise nothing. */
  function GetApiKey(h: Headers): (r: Option<string>)
    ensures HasBearer(h) ==> r.Some? && BearerPrefix + r.value == h[AuthorizationHeader]
    ensures !HasBearer(h) ==> (r.Some? <==> Filled(Header(h, KeyHeader)))
    ensures !HasBearer(h) && r.Some? ==> r.value == h[KeyHeader]
  {
    var auth := Header(h, AuthorizationHeader);
    if Filled(auth) && StartsWith(auth.value, BearerPrefix) then
      assert auth.value == auth.value[..7] + auth.value[7..];
      Some(auth.value[7..])
    else if Filled(Header(h, KeyHeader)) then Header(h, KeyHeader)
    else None
  }

  /** The gateway's `!apiKey` test: a missing or empty key is refused. */
  predicate Authenticated(key: Option<string>) {
    Filled(key)
  }

  /** A bearer header yields exactly its token, whatever `x-publora-key` says. */
  lemma BearerWins(h: Headers, token: string)
    ensures GetApiKey(h[AuthorizationHeader := BearerPrefix + token]) == Some(token)
  {
    var h' := h[AuthorizationHeader := BearerPrefix + token];
    assert (BearerPrefix + token)[..|BearerPrefix|] == BearerPrefix;
    var r := GetApiKey(h');
    assert BearerPrefix + r.value == BearerPrefix + token;
    assert r.value == (BearerPrefix + r.value)[|BearerPrefix|..];
  }

  /** An authorization header without the "Bearer " prefix (or none at all)
      is ignored and `x-publora-key` decides. */
  lemma NonBearerFallsThrough(h: Headers, auth: Option<string>)
    requires auth.None? || !StartsWith(auth.value, BearerPrefix)
    ensures var h' := if auth.Some? then h[AuthorizationHeader := auth.value] else h - {AuthorizationHeader};
            GetApiKey(h') == if Filled(Header(h, KeyHeader)) then Header(h, KeyHeader) else None
  {
  }

  /** With neither header there is no key. */
  lemma NoHeadersNoKey(h: Headers)
    requires AuthorizationHeader !in h && KeyHeader !in h
    ensures GetApiKey(h) == None
  {
  }

  /** The extracted key is empty exactly when the authorization header is the
      bare prefix "Bearer "; the gateway then refuses the request even if
      `x-publora-key` holds a key. */
  lemma EmptyKeyOnlyFromBareBearer(h: Headers)
    ensures GetApiKey(h) == Some("") <==> Header(h, AuthorizationHeader) == Some(BearerPrefix)
  {
    if Header(h, AuthorizationHeader) == Some(BearerPrefix) {
      assert h[AuthorizationHeader][..|BearerPrefix|] == BearerPrefix;
    }
    if GetApiKey(h) == Some("") {
      assert HasBearer(h);
      assert BearerPrefix + "" == BearerPrefix;
    }
  }

  /** The four header combinations of the `getApiKey` unit tests. */
  lemma KeyExamples()
    ensures GetApiKey(map[AuthorizationHeader := "Bearer sk_test123"]) == Some("sk_test123")
    ensures GetApiKey(map[KeyHeader := "sk_abc"]) == Some("sk_abc")
    ensures GetApiKey(map[]) == None
    ensures GetApiKey(map[AuthorizationHeader := "Bearer sk_bearer", KeyHeader := "sk_header"]) == Some("sk_bearer")
  {
  }
}
