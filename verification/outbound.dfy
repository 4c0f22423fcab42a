/**
 * Outbound header construction (`prepare_headers`): four fixed headers plus
 * `Authorization`, which is `Bearer <key>` for a configured non-empty key and
 * otherwise the caller's own `authorization` header, possibly absent.
 */
module Outbound {
  import opened Wrappers
  import opened Ascii

  /** Inbound request headers in arrival order; names compare case-insensitively. */
  type InboundHeaders = seq<(string, string)>

  /** The outbound header dict; `Authorization` may hold None. */
  type HeaderSet = map<string, Option<string>>

  const ContentType: string := "application/json; charset=utf-8"
  const Accept: string := "*/*"
  const AcceptEncoding: string := "gzip, deflate, br, zstd"
  const UserAgent: string := "Mozilla/5.0 (Macintosh; Intel Mac OS X 10_15_7) AppleWebKit/537.36 (KHTML, like Gecko) Chrome/123.0.0.0 Safari/537.36"

  /** The five header names sent upstream, and no others. */
  const OutboundNames: set<string> := {"Content-Type", "Accept", "Accept-Encoding", "User-Agent", "Authorization"}

  /** Position `i` holds the first header named `name`, ignoring case. */
  ghost predicate FirstMatchAt(headers: InboundHeaders, name: string, i: int) {
    && 0 <= i < |headers|
    && SameIgnoringCase(headers[i].0, name)
    && forall j :: 0 <= j < i ==> !SameIgnoringCase(headers[j].0, name)
  }

  /** `req.headers.get(name)` on a case-insensitive multi-dict: the first matching value. */
  function FindHeader(headers: InboundHeaders, name: string): (r: Option<string>)
    ensures r.Some? <==> exists i :: 0 <= i < |headers| && SameIgnoringCase(headers[i].0, name)
    ensures r.Some? ==> exists i :: FirstMatchAt(headers, name, i) && r.value == headers[i].1
  {
    if headers == [] then None
    else if SameIgnoringCase(headers[0].0, name) then
      assert FirstMatchAt(headers, name, 0);
      Some(headers[0].1)
    else
      var rest := FindHeader(headers[1..], name);
      if rest.Some? then
        assert exists i :: FirstMatchAt(headers, name, i) && rest.value == headers[i].1 by {
          var k :| FirstMatchAt(headers[1..], name, k) && rest.value == headers[1..][k].1;
          assert FirstMatchAt(headers, name, k + 1);
        }
        rest
      else
        assert forall i :: 1 <= i < |headers| ==> headers[i] == headers[1..][i - 1];
        rest
  }

  /** The configured key is usable: neither None nor empty. */
  predicate HasKey(key: Option<string>) {
    key.Some? && key.value != ""
  }

  /** The `Authorization` value sent upstream. */
  function Authorization(key: Option<string>, inbound: InboundHeaders): Option<string> {
    if HasKey(key) then Some("Bearer " + key.value) else FindHeader(inbound, "authorization")
  }

  /**
   * The header dict `prepare_headers` builds: exactly the five names, four
   * fixed values, and an `Authorization` that is the configured bearer key or
   * else the first inbound `authorization` header under any spelling of its name.
   */
  function PrepareHeaders(key: Option<string>, inbound: InboundHeaders): (h: HeaderSet)
    ensures h.Keys == OutboundNames
    ensures h["Content-Type"] == Some(ContentType) && h["Accept"] == Some(Accept)
    ensures h["Accept-Encoding"] == Some(AcceptEncoding) && h["User-Agent"] == Some(UserAgent)
    ensures HasKey(key) ==> h["Authorization"] == Some("Bearer " + key.value)
    ensures !HasKey(key) ==>
              (h["Authorization"].Some? <==>
                 exists i :: 0 <= i < |inbound| && SameIgnoringCase(inbound[i].0, "authorization"))
    ensures !HasKey(key) && h["Authorization"].Some? ==>
              exists i :: FirstMatchAt(inbound, "authorization", i) && h["Authorization"].value == inbound[i].1
  {
    map["Content-Type" := Some(ContentType), "Accept" := Some(Accept),
        "Accept-Encoding" := Some(AcceptEncoding), "User-Agent" := Some(UserAgent),
        "Authorization" := Authorization(key, inbound)]
  }

  /** With a configured key the caller's headers have no influence at all. */
  lemma ConfiguredKeyIgnoresCaller(key: Option<string>, inbound: InboundHeaders, other: InboundHeaders)
    requires HasKey(key)
    ensures PrepareHeaders(key, inbound) == PrepareHeaders(key, other)
  {
  }

  /**
   * No inbound header other than `authorization` is forwarded: two callers
   * whose `authorization` lookups agree get identical outbound headers.
   */
  lemma OnlyAuthorizationIsForwarded(key: Option<string>, inbound: InboundHeaders, other: InboundHeaders)
    requires FindHeader(inbound, "authorization") == FindHeader(other, "authorization")
    ensures PrepareHeaders(key, inbound) == PrepareHeaders(key, other)
  {
  }

  /** An empty key counts as no key: the caller's header passes through, here `Authorization: Bearer tok`. */
  lemma EmptyKeyPassesCallerThrough()
    ensures PrepareHeaders(Some(""), [("Host", "h"), ("AUTHORIZATION", "Bearer tok")])["Authorization"]
            == Some("Bearer tok")
  {
    assert Lower("Host") != Lower("authorization") by {
      assert |Lower("Host")| != |Lower("authorization")|;
    }
    assert Lower("AUTHORIZATION") == Lower("authorization");
    var hs := [("Host", "h"), ("AUTHORIZATION", "Bearer tok")];
    assert hs[1..] == [("AUTHORIZATION", "Bearer tok")];
  }
}
