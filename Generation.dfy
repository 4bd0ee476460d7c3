/** The language model as the pipeline sees it, and the validated-generation protocol that
    triage and summarisation share: generate, try to read a valid record, and on failure make
    exactly one repair call before settling for a fixed fallback. */
module Generation {
  import opened Base
  import opened Strings
  import opened JsonValue

  /** What one `generate` call does: return text, or raise. */
  datatype Reply = Returned(text: string) | Raised(exc: Exc)

  /** A JSON Schema document and the verdict of `jsonschema.validate` against it. */
  datatype Schema = Schema(doc: Json, accepts: Json -> bool)

  /** The exception a scripted model raises once its outputs are used up. */
  const Exhausted: Exc := Exc("IndexError", "list index out of range", false)

  /** A language model that answers from a fixed queue of replies and counts its calls.
      Besides the queue and the counter it records every prompt it was sent. */
  class Llm {
    var outputs: seq<Reply>
    var calls: nat
    var prompts: seq<string>

    constructor(outputs: seq<Reply>)
      ensures this.outputs == outputs && calls == 0 && prompts == []
    {
      this.outputs := outputs;
      calls := 0;
      prompts := [];
    }

    /** The reply the call `k` calls from now will give. */
    function Upcoming(k: nat): (r: Reply)
      reads this
      ensures calls + k >= |outputs| ==> r == Raised(Exhausted)
    {
      if calls + k < |outputs| then outputs[calls + k] else Raised(Exhausted)
    }

    /** `generate(prompt, schema=…)`: the next queued reply, and one more call counted. */
    method Generate(prompt: string) returns (r: Reply)
      modifies this
      ensures r == old(Upcoming(0))
      ensures outputs == old(outputs)
      ensures calls == old(calls) + 1
      ensures prompts == old(prompts) + [prompt]
      ensures Upcoming(0) == old(Upcoming(1))
    {
      r := if calls < |outputs| then outputs[calls] else Raised(Exhausted);
      calls := calls + 1;
      prompts := prompts + [prompt];
    }
  }

  /** The repair prompt: every `{{SCHEMA_JSON}}` replaced by the schema text, then every
      `{{BAD_OUTPUT}}` replaced by the rejected output. */
  function RepairPrompt(template: string, schemaText: string, bad: string): string {
    ReplaceAll(ReplaceAll(template, SchemaMark, schemaText), BadMark, bad)
  }

  const SchemaMark: string := "{{SCHEMA_JSON}}"
  const BadMark: string := "{{BAD_OUTPUT}}"

  /** No occurrence of `p` starts inside `x` when `x` is followed by `rest`. */
  predicate NoneStartsIn(x: string, rest: string, p: string) {
    forall i :: 0 <= i < |x| ==> !StartsWith((x + rest)[i..], p)
  }

  lemma BraceFree(x: string, rest: string, p: string)
    requires '{' !in x && |p| > 0 && p[0] == '{'
    ensures NoneStartsIn(x, rest, p)
  {
    forall i | 0 <= i < |x|
      ensures !StartsWith((x + rest)[i..], p)
    {
      assert (x + rest)[i..][0] == x[i];
    }
  }

  /** For a template that holds one schema marker and, after it, one output marker, with
      plain text (no braces) around them: the schema text goes in first, the rejected output
      second, and the output is inserted verbatim even when it holds a marker itself. */
  lemma RepairPromptFill(a: string, b: string, schemaText: string, bad: string)
    requires '{' !in a && '{' !in b
    requires NoneStartsIn(schemaText, b + BadMark, BadMark)
    ensures RepairPrompt(a + SchemaMark + b + BadMark, schemaText, bad) == a + schemaText + b + bad
  {
    var t := a + SchemaMark + b + BadMark;
    var once := ReplaceAll(t, SchemaMark, schemaText);
    SchemaPass(a, b, schemaText);
    assert once == a + (schemaText + (b + BadMark));
    OutputPass(a, b, schemaText, bad);
    assert RepairPrompt(t, schemaText, bad) == ReplaceAll(once, BadMark, bad);
    assert a + schemaText + b + bad == a + (schemaText + (b + bad));
  }

  lemma SchemaPass(a: string, b: string, schemaText: string)
    requires '{' !in a && '{' !in b
    ensures ReplaceAll(a + SchemaMark + b + BadMark, SchemaMark, schemaText) ==
            a + (schemaText + (b + BadMark))
  {
    BraceFree(a, SchemaMark + (b + BadMark), SchemaMark);
    assert a + SchemaMark + b + BadMark == a + (SchemaMark + (b + BadMark));
    ReplaceConcat(a, SchemaMark + (b + BadMark), SchemaMark, schemaText);
    ReplaceFront(b + BadMark, SchemaMark, schemaText);
    BraceFree(b, BadMark, SchemaMark);
    ReplaceConcat(b, BadMark, SchemaMark, schemaText);
    TooLongAbsent(BadMark, SchemaMark);
    ReplaceAbsent(BadMark, SchemaMark, schemaText);
  }

  lemma OutputPass(a: string, b: string, schemaText: string, bad: string)
    requires '{' !in a && '{' !in b
    requires NoneStartsIn(schemaText, b + BadMark, BadMark)
    ensures ReplaceAll(a + (schemaText + (b + BadMark)), BadMark, bad) == a + (schemaText + (b + bad))
  {
    BraceFree(a, schemaText + (b + BadMark), BadMark);
    ReplaceConcat(a, schemaText + (b + BadMark), BadMark, bad);
    ReplaceConcat(schemaText, b + BadMark, BadMark, bad);
    BraceFree(b, BadMark, BadMark);
    ReplaceConcat(b, BadMark, BadMark, bad);
    ReplaceFront([], BadMark, bad);
    assert BadMark + [] == BadMark;
    assert bad + [] == bad;
  }

  /** A pattern longer than the text does not occur in it. */
  lemma {:induction false} TooLongAbsent(x: string, p: string)
    requires |p| > |x|
    ensures !Contains(x, p)
    decreases |x|
  {
    if |x| > 0 {
      TooLongAbsent(x[1..], p);
    }
  }

  /** What a validated generation ends with, and the prompts it sent. */
  datatype Outcome = Outcome(result: Result<Json>, sent: seq<string>)

  /** The protocol on the replies the first and the second call would give. `attempt` reads,
      normalises and validates a raw output (None when any step raises an ordinary exception).
      The first call sits outside any handler; the repair call and its reading are inside
      `except Exception`, so only a fatal exception escapes from there. */
  function Protocol(prompt: string, repairTemplate: string, schemaText: string,
                    first: Reply, second: Reply,
                    attempt: string -> Option<Json>, fallback: Result<Json>): (o: Outcome)
    ensures 1 <= |o.sent| <= 2 && o.sent[0] == prompt
    ensures |o.sent| == 2 <==> first.Returned? && attempt(first.text).None?
    ensures |o.sent| == 2 ==> o.sent[1] == RepairPrompt(repairTemplate, schemaText, first.text)
    // a first output that reads and validates is returned, and no repair call is made
    ensures first.Returned? && attempt(first.text).Some? ==> o.result == Ok(attempt(first.text).value)
    // an exception from the first call propagates
    ensures first.Raised? ==> o.result == Err(first.exc)
    // an ordinary exception from the repair call gives the fallback
    ensures |o.sent| == 2 && second.Raised? && !second.exc.fatal ==> o.result == fallback
    // every record returned is a validated output of one of the two calls, or the fallback
    ensures o.result.Ok? ==>
      o.result == fallback ||
      (first.Returned? && attempt(first.text) == Some(o.result.value)) ||
      (second.Returned? && attempt(second.text) == Some(o.result.value))
    // every exception comes from the model itself, or from building the fallback
    ensures o.result.Err? ==>
      o.result == fallback ||
      first == Raised(o.result.exc) ||
      (second == Raised(o.result.exc) && o.result.exc.fatal)
  {
    match first
    case Raised(e) => Outcome(Err(e), [prompt])
    case Returned(raw) =>
      match attempt(raw)
      case Some(d) => Outcome(Ok(d), [prompt])
      case None =>
        var sent := [prompt, RepairPrompt(repairTemplate, schemaText, raw)];
        match second
        case Raised(e) => Outcome(if e.fatal then Err(e) else fallback, sent)
        case Returned(fixed) =>
          match attempt(fixed)
          case Some(d) => Outcome(Ok(d), sent)
          case None => Outcome(fallback, sent)
  }

  /** The shared body of `triage_paper` and `summarize_paper` from the first `generate` on. */
  method ValidatedGenerate(llm: Llm, prompt: string, repairTemplate: string, schemaText: string,
                           attempt: string -> Option<Json>, fallback: Result<Json>)
    returns (r: Result<Json>)
    modifies llm
    ensures var o := Protocol(prompt, repairTemplate, schemaText,
                              old(llm.Upcoming(0)), old(llm.Upcoming(1)), attempt, fallback);
      r == o.result &&
      llm.prompts == old(llm.prompts) + o.sent &&
      llm.calls == old(llm.calls) + |o.sent|
    ensures llm.outputs == old(llm.outputs)
  {
    var raw := llm.Generate(prompt);
    if raw.Raised? {
      return Err(raw.exc);
    }
    var data := attempt(raw.text);
    if data.Some? {
      return Ok(data.value);
    }
    var repaired := llm.Generate(RepairPrompt(repairTemplate, schemaText, raw.text));
    if repaired.Raised? {
      if repaired.exc.fatal {
        return Err(repaired.exc);
      }
      return fallback;
    }
    data := attempt(repaired.text);
    if data.Some? {
      return Ok(data.value);
    }
    return fallback;
  }
}
