/** Concrete requests through the handler, showing the resolution and relay rules on small configs. */
module Scenarios {
  import opened Wrappers
  import opened JsonValue
  import opened Errors
  import opened Routing
  import opened Outbound
  import opened Gateway

  const Upstream4: string := "https://up/v1/chat/completions"
  const FallbackUrl: string := "https://fallback/v1/chat/completions"

  /** `gpt-4` has its own entry; everything else falls back to `"*"`. */
  const TwoEntries: Config := map[
    "gpt-4" := map["url" := Upstream4, "key" := "k1"],
    "*" := map["url" := FallbackUrl, "key" := "kf"]
  ]

  function Post(model: Json, stream: Json): Request {
    Request("POST", [("Authorization", "Bearer caller")],
            Success(Obj(map["model" := model, "stream" := stream])))
  }

  /** The exact model's entry supplies both URL and key. */
  lemma ExactModelForwardsWithItsKey()
    ensures Fetch(TwoEntries, Post(Str("gpt-4"), Bool(false)))
            == Forward(Upstream4, PrepareHeaders(Some("k1"), [("Authorization", "Bearer caller")]),
                       Obj(map["model" := Str("gpt-4"), "stream" := Bool(false)]))
  {
  }

  /** An unknown model uses the `"*"` entry's URL and key. */
  lemma UnknownModelUsesWildcard()
    ensures var o := Fetch(TwoEntries, Post(Str("claude"), Bool(true)));
            o.Forward? && o.url == FallbackUrl && o.headers["Authorization"] == Some("Bearer kf")
  {
    assert "claude"[0] != "gpt-4"[0] && "claude"[0] != "*"[0];
    assert "Bearer " + "kf" == "Bearer kf";
  }

  /** A model entry without `url` does not borrow the `"*"` URL: the request fails. */
  lemma EntryWithoutUrlFails()
    ensures Fetch(map["gpt-4" := map["key" := "k1"], "*" := map["url" := FallbackUrl]],
                  Post(Str("gpt-4"), Null))
            == Error500(MissingUrl)
  {
  }

  /** A list-valued `model` cannot be looked up: 500 with Python's unhashable-type text. */
  lemma ListModelIsUnhashable()
    ensures var r := Serve(TwoEntries, Post(Arr([]), Null), Unreachable("never sent"));
            r == ErrorText(Unhashable("list")) && ReplyText(r) == Some("unhashable type: 'list'")
  {
    assert "unhashable type: '" + "list" + "'" == "unhashable type: 'list'";
  }

  /** A body that is a JSON list has no `get`: 500 with Python's attribute-error text. */
  lemma ListBodyHasNoGet()
    ensures ReplyText(Serve(TwoEntries, Request("POST", [], Success(Arr([]))), Unreachable("never sent")))
            == Some("'list' object has no attribute 'get'")
  {
    assert "'" + "list" + "' object has no attribute 'get'" == "'list' object has no attribute 'get'";
  }

  /** The string `"false"` is truthy, so it selects streaming; the number 0 does not. */
  lemma StreamFlagIsPythonTruthiness()
    ensures SelectMode(200, map["stream" := Str("false")]) == Streaming
    ensures SelectMode(200, map["stream" := Int(0)]) == Buffered
    ensures SelectMode(200, map[]) == Buffered
    ensures SelectMode(429, map["stream" := Bool(true)]) == PassUpstream
  {
  }
}
