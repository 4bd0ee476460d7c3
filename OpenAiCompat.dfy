/** The client for OpenAI-compatible chat-completion endpoints: the token estimate, the text it
    reads out of a `choices` payload, how it classifies HTTP statuses, and the at-most-two
    request sequence that first asks for schema-constrained output and falls back to a plain
    request when the provider rejects the schema. HTTP itself is a scripted transport. */
module OpenAiCompat {
  import opened Base
  import opened Strings
  import opened JsonValue

  /** The settings the client reads (request timeouts only shape the transport). */
  datatype Config = Config(
    apiKey: string,
    baseUrl: string,
    model: string,
    temperature: real,
    maxOutputTokens: int,
    charsPerToken: int)

  const ChatPath: string := "/chat/completions"

  /** `base_url.rstrip("/") + "/chat/completions"` */
  function Endpoint(baseUrl: string): (r: string)
    ensures EndsWith(r, ChatPath)
    ensures var stem := r[..|r| - |ChatPath|];
      StartsWith(baseUrl, stem) &&
      (forall i :: |stem| <= i < |baseUrl| ==> baseUrl[i] == '/') &&
      (stem == [] || stem[|stem| - 1] != '/')
  {
    var stem := RStripChar(baseUrl, '/');
    assert (stem + ChatPath)[..|stem|] == stem;
    stem + ChatPath
  }

  /** `count_tokens`: the content length divided by the characters per token (at least 1),
      rounded up, and never below 1. */
  function CountTokens(content: string, charsPerToken: int): (n: int)
    ensures n >= 1
    ensures |content| <= n * Max(1, charsPerToken)
    ensures n == 1 || (n - 1) * Max(1, charsPerToken) < |content|
  {
    var c := Max(1, charsPerToken);
    var q := (|content| + c - 1) / c;
    assert q * c <= |content| + c - 1 < (q + 1) * c;
    Max(1, q)
  }

  /** A longer text never has a smaller estimate. */
  lemma CountTokensMonotone(a: string, b: string, charsPerToken: int)
    requires |a| <= |b|
    ensures CountTokens(a, charsPerToken) <= CountTokens(b, charsPerToken)
  {
  }

  /** What one list item of `content` contributes: a bare string, or the string `text` of a
      dict whose `type` is "text" or missing. Testing `type` for membership in a set raises
      TypeError when it is a list or a dict, which cannot be hashed. */
  function ItemPart(item: Json): (r: Result<seq<string>>)
    ensures r.Ok? ==> |r.value| <= 1
    ensures item.Str? ==> r == Ok([item.s])
  {
    if item.Str? then Ok([item.s])
    else if !item.Obj? then Ok([])
    else
      var kind := GetOr(item, "type", Null);
      if kind.Arr? || kind.Obj? then Err(Raise("TypeError"))
      else if kind != Null && kind != Str("text") then Ok([])
      else
        var text := GetOr(item, "text", Null);
        if text.Str? then Ok([text.s]) else Ok([])
  }

  /** The parts gathered from the items, in order; the first item that raises ends it. */
  function TextParts(items: seq<Json>): (r: Result<seq<string>>)
    ensures r.Ok? ==> |r.value| <= |items|
  {
    if |items| == 0 then Ok([])
    else
      var before :- TextParts(items[..|items| - 1]);
      var part :- ItemPart(items[|items| - 1]);
      Ok(before + part)
  }

  /** Once an item has raised, the later items do not matter. */
  lemma {:induction false} TextPartsErrSticky(items: seq<Json>, i: int)
    requires 0 <= i <= |items| && TextParts(items[..i]).Err?
    ensures TextParts(items) == TextParts(items[..i])
    decreases |items|
  {
    if i < |items| {
      var init := items[..|items| - 1];
      assert init[..i] == items[..i];
      TextPartsErrSticky(init, i);
    } else {
      assert items[..i] == items;
    }
  }

  /** A list of bare strings contributes every string. */
  lemma {:induction false} TextPartsStrings(ss: seq<string>)
    ensures TextParts(StrList(ss).items) == Ok(ss)
    decreases |ss|
  {
    if |ss| > 0 {
      var init := ss[..|ss| - 1];
      TextPartsStrings(init);
      assert StrList(ss).items[..|ss| - 1] == StrList(init).items;
      assert ss == init + [ss[|ss| - 1]];
    }
  }

  /** A dict item whose type is some other text (an image, say) contributes nothing. */
  lemma OtherTypeIgnored(items: seq<Json>, kind: string, t: string)
    requires kind != "text"
    ensures TextParts(items + [Obj([("type", Str(kind)), ("text", Str(t))])]) == TextParts(items)
  {
    var item := Obj([("type", Str(kind)), ("text", Str(t))]);
    assert (items + [item])[..|items|] == items;
    assert GetOr(item, "type", Null) == Str(kind);
    if TextParts(items).Ok? {
      assert TextParts(items).value + [] == TextParts(items).value;
    }
  }

  /** `"".join(parts)` */
  function Concat(parts: seq<string>): string {
    if |parts| == 0 then "" else parts[0] + Concat(parts[1..])
  }

  /** `_extract_text(payload)`: the stripped text of the first choice's message; "" whenever
      the payload has no usable choice or content. Calling `.get` on a payload or a first
      choice that is not a dict raises AttributeError. */
  function ExtractSpec(payload: Json): (r: Result<string>)
    ensures r.Ok? ==> Stripped(r.value)
    ensures !payload.Obj? ==> r.Err?
  {
    if !payload.Obj? then Err(Raise("AttributeError"))
    else
      var choices := GetOr(payload, "choices", Null);
      if !choices.Arr? || |choices.items| == 0 then Ok("")
      else if !choices.items[0].Obj? then Err(Raise("AttributeError"))
      else
        var message := GetOr(choices.items[0], "message", Obj([]));
        if !message.Obj? then Ok("")
        else
          var content := GetOr(message, "content", Null);
          if content.Str? then Ok(Strip(content.s))
          else if content.Arr? then
            var parts :- TextParts(content.items);
            Ok(Strip(Concat(parts)))
          else Ok("")
  }

  /** A payload without a non-empty `choices` list gives "". */
  lemma ExtractNoChoices(payload: Json)
    requires payload.Obj?
    requires !GetOr(payload, "choices", Null).Arr? || GetOr(payload, "choices", Null).items == []
    ensures ExtractSpec(payload) == Ok("")
  {
  }

  /** A single choice whose message content is a string gives that string, stripped. */
  lemma ExtractStringContent(c: string)
    ensures ExtractSpec(Obj([("choices", Arr([Obj([("message", Obj([("content", Str(c))]))])]))]))
            == Ok(Strip(c))
  {
    var message := Obj([("content", Str(c))]);
    var choice := Obj([("message", message)]);
    var payload := Obj([("choices", Arr([choice]))]);
    assert GetOr(payload, "choices", Null) == Arr([choice]);
    assert GetOr(choice, "message", Obj([])) == message;
    assert GetOr(message, "content", Null) == Str(c);
  }

  /** Content given as a list of strings gives their concatenation, stripped. */
  lemma ExtractListContent(ss: seq<string>)
    ensures ExtractSpec(Obj([("choices", Arr([Obj([("message", Obj([("content", StrList(ss))]))])]))]))
            == Ok(Strip(Concat(ss)))
  {
    var content := StrList(ss);
    var message := Obj([("content", content)]);
    var choice := Obj([("message", message)]);
    var payload := Obj([("choices", Arr([choice]))]);
    assert GetOr(payload, "choices", Null) == Arr([choice]);
    assert GetOr(choice, "message", Obj([])) == message;
    assert GetOr(message, "content", Null) == content;
    TextPartsStrings(ss);
  }

  /** `_extract_text`, gathering the parts in a loop. */
  method ExtractText(payload: Json) returns (r: Result<string>)
    ensures r == ExtractSpec(payload)
  {
    if !payload.Obj? {
      return Err(Raise("AttributeError"));
    }
    var choices := GetOr(payload, "choices", Null);
    if !choices.Arr? || |choices.items| == 0 {
      return Ok("");
    }
    var first := choices.items[0];
    if !first.Obj? {
      return Err(Raise("AttributeError"));
    }
    var message := GetOr(first, "message", Obj([]));
    if !message.Obj? {
      return Ok("");
    }
    var content := GetOr(message, "content", Null);
    if content.Str? {
      return Ok(Strip(content.s));
    }
    if content.Arr? {
      var items := content.items;
      var parts: seq<string> := [];
      var i := 0;
      while i < |items|
        invariant 0 <= i <= |items|
        invariant TextParts(items[..i]) == Ok(parts)
      {
        var part := ItemPart(items[i]);
        assert items[..i + 1][..i] == items[..i];
        if part.Err? {
          TextPartsErrSticky(items, i + 1);
          return Err(part.exc);
        }
        parts := parts + part.value;
        i := i + 1;
      }
      assert items[..i] == items;
      return Ok(Strip(Concat(parts)));
    }
    return Ok("");
  }

  /** An HTTP response: its status and its body as `response.json()` reads it (None when the
      body is not JSON, where `response.json()` raises). */
  datatype HttpResponse = HttpResponse(status: int, body: Option<Json>)

  /** What one POST gives: a response, or an exception from the transport itself. */
  datatype Post = Answered(resp: HttpResponse) | Failed(exc: Exc)

  const RateLimited: Exc := Exc("RateLimitError", "LLM rate limit status=429", false)
  const MissingText: Exc := Exc("RuntimeError", "LLM response missing text content", false)

  function ServerError(status: int): Exc {
    Exc("RuntimeError", "LLM server error status=" + IntText(status), false)
  }

  /** `_request` after the POST: 429 raises RateLimitError, 500 and above raise
      RuntimeError, and every other response is handed back. */
  function Classify(p: Post): (r: Result<HttpResponse>)
    ensures r.Ok? <==> p.Answered? && p.resp.status != 429 && p.resp.status < 500
    ensures r.Ok? ==> r.value == p.resp
    ensures p.Answered? && p.resp.status == 429 ==> r == Err(RateLimited)
    ensures p.Answered? && p.resp.status >= 500 ==> r.Err? && r.exc.name == "RuntimeError"
    ensures p.Failed? ==> r == Err(p.exc)
  {
    match p
    case Failed(e) => Err(e)
    case Answered(resp) =>
      if resp.status == 429 then Err(RateLimited)
      else if resp.status >= 500 then Err(ServerError(resp.status))
      else Ok(resp)
  }

  predicate SchemaRejected(status: int) {
    status == 400 || status == 422
  }

  /** `raise_for_status()`, `response.json()`, `_extract_text` and the empty-text check. */
  function FinishSpec(resp: HttpResponse): (r: Result<string>)
    ensures r.Ok? ==> 200 <= resp.status < 300 && r.value != [] && Stripped(r.value)
    ensures r.Ok? <==> 200 <= resp.status < 300 && resp.body.Some? &&
                       ExtractSpec(resp.body.value).Ok? && ExtractSpec(resp.body.value).value != []
  {
    if !(200 <= resp.status < 300) then Err(Exc("HTTPStatusError", "status " + IntText(resp.status), false))
    else if resp.body.None? then Err(Raise("JSONDecodeError"))
    else
      var text :- ExtractSpec(resp.body.value);
      if text == [] then Err(MissingText) else Ok(text)
  }

  /** The request body without a response format. */
  function BaseBody(config: Config, prompt: string): Json {
    Obj([("model", Str(config.model)),
         ("messages", Arr([Obj([("role", Str("user")), ("content", Str(prompt))])])),
         ("temperature", Float(config.temperature)),
         ("max_tokens", Int(config.maxOutputTokens))])
  }

  /** The base body with a strict JSON-schema response format added as its last key. */
  function SchemaBody(config: Config, prompt: string, schema: Json): Json {
    Obj(BaseBody(config, prompt).fields +
        [("response_format", Obj([("type", Str("json_schema")),
                                  ("json_schema", Obj([("name", Str("response")),
                                                       ("schema", schema),
                                                       ("strict", Bool(true))]))]))])
  }

  /** What `generate` ends with, and the bodies it posted. */
  datatype Exchange = Exchange(result: Result<string>, sent: seq<Json>)

  /** `generate` on the answers to the first and second POST. */
  function GenerateSpec(config: Config, prompt: string, schema: Option<Json>, first: Post, second: Post)
    : (o: Exchange)
    ensures 1 <= |o.sent| <= 2
    ensures o.sent[0] == if schema.Some? then SchemaBody(config, prompt, schema.value) else BaseBody(config, prompt)
    // the plain request is repeated only after the provider rejected the schema
    ensures |o.sent| == 2 <==> schema.Some? && first.Answered? && SchemaRejected(first.resp.status)
    ensures |o.sent| == 2 ==> o.sent[1] == BaseBody(config, prompt)
    // whatever is returned is non-empty stripped text
    ensures o.result.Ok? ==> o.result.value != [] && Stripped(o.result.value)
    // the answer to the last request decides the outcome
    ensures var last := if |o.sent| == 2 then second else first;
      (last.Answered? && last.resp.status == 429 ==> o.result == Err(RateLimited)) &&
      (last.Failed? ==> o.result == Err(last.exc)) &&
      (o.result.Ok? ==> last.Answered? && o.result == FinishSpec(last.resp))
  {
    var base := BaseBody(config, prompt);
    if schema.Some? then
      var body := SchemaBody(config, prompt, schema.value);
      match Classify(first)
      case Err(e) => Exchange(Err(e), [body])
      case Ok(resp) =>
        if SchemaRejected(resp.status) then
          match Classify(second)
          case Err(e) => Exchange(Err(e), [body, base])
          case Ok(resp2) => Exchange(FinishSpec(resp2), [body, base])
        else Exchange(FinishSpec(resp), [body])
    else
      match Classify(first)
      case Err(e) => Exchange(Err(e), [base])
      case Ok(resp) => Exchange(FinishSpec(resp), [base])
  }

  /** Without a schema, a 400 is not retried: it raises from `raise_for_status`. */
  lemma PlainBadRequestRaises(config: Config, prompt: string, body: Option<Json>, second: Post)
    ensures var o := GenerateSpec(config, prompt, None, Answered(HttpResponse(400, body)), second);
      |o.sent| == 1 && o.result.Err? && o.result.exc.name == "HTTPStatusError"
  {
  }

  /** `load_api_key`: the name is stripped and must not be blank, and the variable's value,
      stripped, must not be blank either. */
  function LoadApiKey(envVar: string, env: map<string, string>): (r: Result<string>)
    ensures r.Ok? <==> !IsBlank(envVar) && Strip(envVar) in env && !IsBlank(env[Strip(envVar)])
    ensures r.Ok? ==> r.value == Strip(env[Strip(envVar)])
    ensures r.Ok? ==> r.value != [] && Stripped(r.value)
  {
    var name := Strip(envVar);
    if name == [] then Err(Exc("RuntimeError", "Missing API key environment variable name.", false))
    else
      var value := if name in env then env[name] else "";
      var key := Strip(value);
      if key == [] then Err(Exc("RuntimeError", "Missing API key in environment variable: " + name, false))
      else Ok(key)
  }

  /** Whitespace around the variable's name or its value makes no difference. */
  lemma LoadApiKeyPadded(pre: string, name: string, post: string, env: map<string, string>)
    requires AllSpace(pre) && AllSpace(post) && Stripped(name) && name != []
    ensures LoadApiKey(pre + name + post, env) == LoadApiKey(name, env)
  {
    StripPadded(pre, name, post);
  }

  /** The client with a scripted transport: `script(k)` is the answer to the k-th POST, and
      the client records the body of every POST it makes. */
  class Client {
    const config: Config
    const endpoint: string
    const script: nat -> Post
    var bodies: seq<Json>

    constructor(config: Config, script: nat -> Post)
      ensures this.config == config && endpoint == Endpoint(config.baseUrl)
      ensures this.script == script && bodies == []
    {
      this.config := config;
      endpoint := Endpoint(config.baseUrl);
      this.script := script;
      bodies := [];
    }

    /** The answer the POST `k` posts from now will get. */
    function Upcoming(k: nat): Post
      reads this
    {
      script(|bodies| + k)
    }

    /** `_request(body)` */
    method Request(body: Json) returns (r: Result<HttpResponse>)
      modifies this
      ensures r == Classify(old(Upcoming(0)))
      ensures bodies == old(bodies) + [body]
    {
      r := Classify(script(|bodies|));
      bodies := bodies + [body];
    }

    /** `generate(prompt, schema)` */
    method Generate(prompt: string, schema: Option<Json>) returns (r: Result<string>)
      modifies this
      ensures var o := GenerateSpec(config, prompt, schema, old(Upcoming(0)), old(Upcoming(1)));
        r == o.result && bodies == old(bodies) + o.sent
    {
      ghost var first := Upcoming(0);
      ghost var second := Upcoming(1);
      var base := BaseBody(config, prompt);
      var attemptedSchema := false;
      if schema.Some? {
        attemptedSchema := true;
        var resp :- Request(SchemaBody(config, prompt, schema.value));
        assert Upcoming(0) == second;
        if SchemaRejected(resp.status) {
          attemptedSchema := false;
        } else {
          r := Finish(resp);
          return;
        }
      }
      var resp :- Request(base);
      if SchemaRejected(resp.status) && attemptedSchema {
        // the retry the source keeps here cannot happen: a rejected schema cleared the flag
        assert false;
      }
      r := Finish(resp);
    }
  }

  /** The last steps of `generate` on a response `_request` handed back. */
  method Finish(resp: HttpResponse) returns (r: Result<string>)
    ensures r == FinishSpec(resp)
  {
    if !(200 <= resp.status < 300) {
      return Err(Exc("HTTPStatusError", "status " + IntText(resp.status), false));
    }
    if resp.body.None? {
      return Err(Raise("JSONDecodeError"));
    }
    var text :- ExtractText(resp.body.value);
    if text == [] {
      return Err(MissingText);
    }
    return Ok(text);
  }
}
