/** The OpenRouter client the batch runner uses: its token estimate, the request body, the
    text it reads out of a chat-completion payload, and what it makes of the response
    status. The POST itself is a parameter. */
module OpenRouter {
  import opened Base
  import opened Strings
  import opened JsonValue
  import OpenAiCompat

  /** `count_tokens`: a quarter of the length, rounded down, and never below 1. */
  function CountTokens(content: string): (n: int)
    ensures n >= 1
    ensures 4 * n <= |content| < 4 * n + 4 || (n == 1 && |content| < 4)
  {
    Max(1, |content| / 4)
  }

  /** The estimate never exceeds the OpenAI-compatible client's at four characters per
      token, which rounds up where this one rounds down. */
  lemma CountTokensBelowCompat(content: string)
    ensures CountTokens(content) <= OpenAiCompat.CountTokens(content, 4)
    ensures OpenAiCompat.CountTokens(content, 4) <= CountTokens(content) + 1
  {
    var n := OpenAiCompat.CountTokens(content, 4);
    assert |content| <= 4 * n;
    assert n == 1 || 4 * (n - 1) < |content|;
  }

  /** A longer text never has a smaller estimate. */
  lemma CountTokensMonotone(a: string, b: string)
    requires |a| <= |b|
    ensures CountTokens(a) <= CountTokens(b)
  {
    assert |a| / 4 <= |b| / 4;
  }

  /** The request body: the model, one user message, the sampling settings, reasoning
      switched on, and a JSON-object response format when a schema is given. */
  function RequestBody(model: string, prompt: string, temperature: real, maxTokens: int, withSchema: bool)
    : (r: Json)
    ensures r.Obj?
    ensures Keys(r) == ["model", "messages", "temperature", "max_tokens", "reasoning"] +
                       (if withSchema then ["response_format"] else [])
  {
    var base := [("model", Str(model)),
                 ("messages", Arr([Obj([("role", Str("user")), ("content", Str(prompt))])])),
                 ("temperature", Float(temperature)),
                 ("max_tokens", Int(maxTokens)),
                 ("reasoning", Obj([("enabled", Bool(true))]))];
    if withSchema then Obj(base + [("response_format", Obj([("type", Str("json_object"))]))])
    else Obj(base)
  }

  /** What one item of a list `content` contributes: a bare string, or `str(text)` of a
      dict whose `text` is truthy; any other item contributes nothing. */
  function ItemPart(item: Json): (r: seq<string>)
    ensures |r| <= 1
    ensures item.Str? ==> r == [item.s]
  {
    if item.Obj? then
      var text := GetOr(item, "text", Null);
      if Truthy(text) then [Display(text)] else []
    else if item.Str? then [item.s]
    else []
  }

  /** The parts gathered from the items, in order. */
  function Parts(items: seq<Json>): (r: seq<string>)
    ensures |r| <= |items|
  {
    if |items| == 0 then [] else Parts(items[..|items| - 1]) + ItemPart(items[|items| - 1])
  }

  /** A list of bare strings contributes every string. */
  lemma {:induction false} PartsOfStrings(ss: seq<string>)
    ensures Parts(StrList(ss).items) == ss
    decreases |ss|
  {
    if |ss| > 0 {
      var init := ss[..|ss| - 1];
      PartsOfStrings(init);
      assert StrList(ss).items[..|ss| - 1] == StrList(init).items;
      assert ss == init + [ss[|ss| - 1]];
    }
  }

  /** The message of the first choice: None when `choices` is falsy (the text is then "").
      Indexing a `choices` that is not a list raises, and so does calling `.get` on a first
      choice that is not a dict; a falsy message counts as an empty dict. */
  function FirstMessage(payload: Json): (r: Result<Option<Json>>)
    requires payload.Obj?
    ensures !Truthy(GetOr(payload, "choices", Null)) ==> r == Ok(None)
    ensures r.Ok? && r.value.Some? ==> Truthy(r.value.value) || r.value.value == Obj([])
  {
    var choices := GetOr(payload, "choices", Null);
    if !Truthy(choices) then Ok(None)
    else if choices.Obj? then Err(Raise("KeyError"))
    else if !(choices.Arr? || choices.Str?) then Err(Raise("TypeError"))
    else if choices.Str? || !choices.items[0].Obj? then Err(Raise("AttributeError"))
    else
      var given := GetOr(choices.items[0], "message", Null);
      Ok(Some(if Truthy(given) then given else Obj([])))
  }

  /** The text of a message: its string content stripped, or the stripped concatenation
      of the parts of a list content, or ""; `.get` on a message that is not a dict
      raises. */
  function ContentText(message: Json): (r: Result<string>)
    ensures r.Ok? ==> Stripped(r.value)
    ensures r.Err? <==> !message.Obj?
  {
    if !message.Obj? then Err(Raise("AttributeError"))
    else
      var content := GetOr(message, "content", Null);
      if content.Str? then Ok(Strip(content.s))
      else if content.Arr? then Ok(Strip(OpenAiCompat.Concat(Parts(content.items))))
      else Ok("")
  }

  /** `_extract_text(payload)`; `.get` on a payload that is not a dict raises. */
  function ExtractSpec(payload: Json): (r: Result<string>)
    ensures r.Ok? ==> Stripped(r.value)
    ensures !payload.Obj? ==> r.Err?
    ensures payload.Obj? && !Truthy(GetOr(payload, "choices", Null)) ==> r == Ok("")
  {
    if !payload.Obj? then Err(Raise("AttributeError"))
    else
      var message :- FirstMessage(payload);
      if message.None? then Ok("") else ContentText(message.value)
  }

  /** The payload of a single choice whose message has the given content. */
  function OneChoice(content: Json): Json {
    Obj([("choices", Arr([Obj([("message", Obj([("content", content)]))])]))])
  }

  lemma OneChoiceMessage(content: Json)
    ensures FirstMessage(OneChoice(content)) == Ok(Some(Obj([("content", content)])))
  {
    var message := Obj([("content", content)]);
    var choice := Obj([("message", message)]);
    assert GetOr(OneChoice(content), "choices", Null) == Arr([choice]);
    assert GetOr(choice, "message", Null) == message;
  }

  /** String content gives the same text as the OpenAI-compatible client reads. */
  lemma StringContentAgrees(c: string)
    ensures ExtractSpec(OneChoice(Str(c))) == Ok(Strip(c))
    ensures OpenAiCompat.ExtractSpec(OneChoice(Str(c))) == Ok(Strip(c))
  {
    OneChoiceMessage(Str(c));
    assert GetOr(Obj([("content", Str(c))]), "content", Null) == Str(c);
    OpenAiCompat.ExtractStringContent(c);
  }

  /** Content given as a list of strings gives their concatenation, stripped. */
  lemma ListContent(ss: seq<string>)
    ensures ExtractSpec(OneChoice(StrList(ss))) == Ok(Strip(OpenAiCompat.Concat(ss)))
  {
    OneChoiceMessage(StrList(ss));
    assert GetOr(Obj([("content", StrList(ss))]), "content", Null) == StrList(ss);
    PartsOfStrings(ss);
  }

  /** Unlike the OpenAI-compatible client, this one does not look at an item's `type`: the
      text of an image item is read as well. */
  lemma TypedItemRead(t: string)
    requires t != []
    ensures Parts([Obj([("type", Str("image")), ("text", Str(t))])]) == [t]
    ensures OpenAiCompat.TextParts([Obj([("type", Str("image")), ("text", Str(t))])]) == Ok([])
  {
    var fields := [("type", Str("image")), ("text", Str(t))];
    var item := Obj(fields);
    assert [item][..0] == [];
    LookupAt(fields, 1, "text");
    LookupAt(fields, 0, "type");
  }

  /** `_extract_text`, gathering the parts in a loop. */
  method ExtractText(payload: Json) returns (r: Result<string>)
    ensures r == ExtractSpec(payload)
  {
    if !payload.Obj? {
      return Err(Raise("AttributeError"));
    }
    var first := FirstMessage(payload);
    if first.Err? {
      return Err(first.exc);
    }
    if first.value.None? {
      return Ok("");
    }
    var message := first.value.value;
    if !message.Obj? {
      return Err(Raise("AttributeError"));
    }
    var content := GetOr(message, "content", Null);
    if content.Str? {
      return Ok(Strip(content.s));
    }
    if content.Arr? {
      var items := content.items;
      var parts: seq<string> := [];
      var i := 0;
      while i < |items|
        invariant 0 <= i <= |items|
        invariant parts == Parts(items[..i])
      {
        assert items[..i + 1][..i] == items[..i];
        parts := parts + ItemPart(items[i]);
        i := i + 1;
      }
      assert i == |items|;
      assert items[..i] == items;
      return Ok(Strip(OpenAiCompat.Concat(parts)));
    }
    return Ok("");
  }

  /** `RateLimitStop` derives from BaseException, so no `except Exception` catches it. */
  function RateLimitStop(status: int): (e: Exc)
    ensures e.name == "RateLimitStop" && !CaughtByExceptClause(e)
  {
    Exc("RateLimitStop", "openrouter_rate_limit_or_quota status=" + IntText(status), true)
  }

  const EmptyContent: Exc := Exc("RuntimeError", "OpenRouter returned empty content", false)

  /** What `generate` makes of the answer to its POST: 402 and 429 stop the run, any other
      status outside 2xx raises (`raise_for_status`), a body that is not JSON raises, and
      an empty text raises instead of being returned. */
  function Finish(answer: OpenAiCompat.Post): (r: Result<string>)
    ensures r.Ok? ==> answer.Answered? && 200 <= answer.resp.status < 300
    ensures r.Ok? ==> r.value != [] && Stripped(r.value)
    ensures answer.Answered? && answer.resp.status in {402, 429} ==> r == Err(RateLimitStop(answer.resp.status))
    ensures (answer.Answered? && 200 <= answer.resp.status < 300 && answer.resp.body.Some? &&
             ExtractSpec(answer.resp.body.value) == Ok("")) ==> r == Err(EmptyContent)
    ensures answer.Failed? ==> r == Err(answer.exc)
  {
    match answer
    case Failed(e) => Err(e)
    case Answered(resp) =>
      if resp.status in {402, 429} then Err(RateLimitStop(resp.status))
      else if !(200 <= resp.status < 300) then Err(Exc("HTTPStatusError", "status " + IntText(resp.status), false))
      else if resp.body.None? then Err(Raise("JSONDecodeError"))
      else
        var text :- ExtractSpec(resp.body.value);
        if text == [] then Err(EmptyContent) else Ok(text)
  }

  /** A successful answer is exactly one whose payload yields non-empty text. */
  lemma FinishSucceeds(answer: OpenAiCompat.Post)
    ensures Finish(answer).Ok? <==>
      answer.Answered? && 200 <= answer.resp.status < 300 && answer.resp.body.Some? &&
      ExtractSpec(answer.resp.body.value).Ok? && ExtractSpec(answer.resp.body.value).value != []
  {
  }
}
