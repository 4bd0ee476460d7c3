/** Structured summary of one accepted paper: the prompt payload, the two fields the caller
    stamps on the model's record, the repair call, and the fallback record. */
module Summarize {
  import opened Base
  import opened Strings
  import opened JsonValue
  import opened Records
  import opened Generation
  import opened Triage

  /** The input record the prompt is built from; `fulltext` is the text window as given. */
  function SummaryPayload(p: Paper, triage: Json, textWindow: string): Json {
    Obj([
      ("arxiv_id_base", Str(p.idBase)),
      ("title", Str(p.title)),
      ("published_date", Str(PublishedDate(p))),
      ("categories", StrList(p.categories)),
      ("abstract", Str(p.summary)),
      ("triage", triage),
      ("fulltext", Str(textWindow))])
  }

  /** The payload carries the publication day and the text window verbatim. */
  lemma PayloadFields(p: Paper, triage: Json, textWindow: string)
    ensures var j := SummaryPayload(p, triage, textWindow);
      Get(j, "published_date") == Some(Str(PublishedDate(p))) &&
      Get(j, "fulltext") == Some(Str(textWindow)) &&
      Get(j, "triage") == Some(triage)
  {
    var fs := SummaryPayload(p, triage, textWindow).fields;
    assert Lookup(fs, "published_date") == Some(Str(PublishedDate(p))) by {
      LookupAt(fs, 2, "published_date");
    }
    assert Lookup(fs, "triage") == Some(triage) by {
      LookupAt(fs, 5, "triage");
    }
    assert Lookup(fs, "fulltext") == Some(Str(textWindow)) by {
      LookupAt(fs, 6, "fulltext");
    }
  }

  function SummaryPrompt(template: string, p: Paper, triage: Json, textWindow: string, codec: Codec): string {
    ReplaceAll(template, "{{INPUT_JSON}}", codec.dumps(SummaryPayload(p, triage, textWindow)))
  }

  /** `data["used_fulltext"] = …; data["notes"] = …` on the parsed record; None when item
      assignment raises (the record is not a dict). */
  function Stamp(d: Json, usedFulltext: bool, notes: string): (r: Option<Json>)
    ensures r.Some? <==> d.Obj?
    ensures r.Some? ==> r.value.Obj?
    ensures r.Some? ==> Get(r.value, "used_fulltext") == Some(Bool(usedFulltext))
    ensures r.Some? ==> Get(r.value, "notes") == Some(Str(notes))
    ensures r.Some? ==> forall k :: k != "used_fulltext" && k != "notes" ==> Get(r.value, k) == Get(d, k)
  {
    if d.Obj? then Some(Set(Set(d, "used_fulltext", Bool(usedFulltext)), "notes", Str(notes)))
    else None
  }

  /** Read, stamp, validate: None when any of the three raises. */
  function SummaryAttempt(codec: Codec, schema: Schema, usedFulltext: bool, notes: string, raw: string): (r: Option<Json>)
    ensures r.Some? ==> schema.accepts(r.value)
    ensures r.Some? ==> exists d :: codec.parse(raw) == Some(d) && Stamp(d, usedFulltext, notes) == r
  {
    match codec.parse(raw)
    case None => None
    case Some(d) =>
      match Stamp(d, usedFulltext, notes)
      case None => None
      case Some(e) => if ValidateJson(e, schema).None? then Some(e) else None
  }

  function SummaryAttemptFn(codec: Codec, schema: Schema, usedFulltext: bool, notes: string): string -> Option<Json> {
    raw => SummaryAttempt(codec, schema, usedFulltext, notes, raw)
  }

  const DefaultTags: seq<string> := ["unknown", "eeg", "foundation-model"]

  /** `triage.get("suggested_digest_tags", [])[:15] or [...]`. Slicing a string gives a
      string; slicing None, a number or a dict raises. */
  function FallbackTags(triage: Json): (r: Result<Json>)
    requires triage.Obj?
    ensures r.Ok? ==> Truthy(r.value)
    ensures var v := GetOr(triage, "suggested_digest_tags", Arr([]));
      (v.Arr? && |v.items| > 0 ==> r == Ok(Arr(v.items[..Min(15, |v.items|)]))) &&
      (v == Arr([]) || v == Str("") ==> r == Ok(StrList(DefaultTags))) &&
      (v.Str? && |v.s| > 0 ==> r == Ok(Str(v.s[..Min(15, |v.s|)]))) &&
      (!v.Arr? && !v.Str? ==> r.Err?)
  {
    match GetOr(triage, "suggested_digest_tags", Arr([]))
    case Arr(xs) =>
      var head := xs[..Min(15, |xs|)];
      Ok(if |head| > 0 then Arr(head) else StrList(DefaultTags))
    case Str(s) =>
      var head := s[..Min(15, |s|)];
      Ok(if |head| > 0 then Str(head) else StrList(DefaultTags))
    case _ => Err(Raise("TypeError"))
  }

  /** The fields of the fallback record, in the order the source writes them. */
  function FallbackFields(p: Paper, triage: Json, tags: Json, usedFulltext: bool, notes: string): seq<(string, Json)> {
    [
      ("arxiv_id_base", Str(p.idBase)),
      ("title", Str(p.title)),
      ("published_date", Str(PublishedDate(p))),
      ("categories", StrList(p.categories)),
      ("paper_type", GetOr(triage, "paper_type", Str("other"))),
      ("one_liner", Str("Summary unavailable due to JSON validation failure.")),
      ("unique_contribution", Str("unknown")),
      ("key_points", StrList(["unknown", "unknown", "unknown"])),
      ("data_scale", Obj([("datasets", Arr([])), ("subjects", Null), ("eeg_hours", Null), ("channels", Null)])),
      ("method", Obj([("architecture", Null), ("objective", Null), ("pretraining", Null), ("finetuning", Null)])),
      ("evaluation", Obj([("tasks", Arr([])), ("benchmarks", Arr([])), ("headline_results", Arr([]))])),
      ("open_source", Obj([("code_url", Null), ("weights_url", Null), ("license", Null)])),
      ("limitations", StrList(["unknown", "summary_json_error"])),
      ("digest_tags", tags),
      ("used_fulltext", Bool(usedFulltext)),
      ("notes", Str(notes + "; summary_json_error"))]
  }

  /** The record `summarize_paper` falls back to. Building it raises when the triage record
      is not a dict (AttributeError) or its suggested tags cannot be sliced. */
  function SummaryFallback(p: Paper, triage: Json, usedFulltext: bool, notes: string): (r: Result<Json>)
    ensures r.Ok? <==> triage.Obj? && FallbackTags(triage).Ok?
  {
    if !triage.Obj? then Err(Raise("AttributeError"))
    else match FallbackTags(triage)
      case Err(e) => Err(e)
      case Ok(tags) => Ok(Obj(FallbackFields(p, triage, tags, usedFulltext, notes)))
  }

  /** The fallback carries the paper's id. */
  lemma FallbackIdBase(p: Paper, triage: Json, usedFulltext: bool, notes: string)
    requires SummaryFallback(p, triage, usedFulltext, notes).Ok?
    ensures Get(SummaryFallback(p, triage, usedFulltext, notes).value, "arxiv_id_base") == Some(Str(p.idBase))
  {
    LookupAt(FallbackFields(p, triage, FallbackTags(triage).value, usedFulltext, notes), 0, "arxiv_id_base");
  }

  /** The fallback carries the paper's title. */
  lemma FallbackTitle(p: Paper, triage: Json, usedFulltext: bool, notes: string)
    requires SummaryFallback(p, triage, usedFulltext, notes).Ok?
    ensures Get(SummaryFallback(p, triage, usedFulltext, notes).value, "title") == Some(Str(p.title))
  {
    LookupAt(FallbackFields(p, triage, FallbackTags(triage).value, usedFulltext, notes), 1, "title");
  }

  /** The fallback's publication day is `published[:10]`. */
  lemma FallbackDate(p: Paper, triage: Json, usedFulltext: bool, notes: string)
    requires SummaryFallback(p, triage, usedFulltext, notes).Ok?
    ensures Get(SummaryFallback(p, triage, usedFulltext, notes).value, "published_date") == Some(Str(PublishedDate(p)))
  {
    LookupAt(FallbackFields(p, triage, FallbackTags(triage).value, usedFulltext, notes), 2, "published_date");
  }

  /** The fallback's categories are the paper's. */
  lemma FallbackCategories(p: Paper, triage: Json, usedFulltext: bool, notes: string)
    requires SummaryFallback(p, triage, usedFulltext, notes).Ok?
    ensures Get(SummaryFallback(p, triage, usedFulltext, notes).value, "categories") == Some(StrList(p.categories))
  {
    LookupAt(FallbackFields(p, triage, FallbackTags(triage).value, usedFulltext, notes), 3, "categories");
  }

  /** The fallback takes its paper type from the triage record, "other" when it has none. */
  lemma FallbackPaperType(p: Paper, triage: Json, usedFulltext: bool, notes: string)
    requires SummaryFallback(p, triage, usedFulltext, notes).Ok?
    ensures Get(SummaryFallback(p, triage, usedFulltext, notes).value, "paper_type") == Some(GetOr(triage, "paper_type", Str("other")))
  {
    LookupAt(FallbackFields(p, triage, FallbackTags(triage).value, usedFulltext, notes), 4, "paper_type");
  }

  /** The fallback's digest tags are the triage's suggestions, cut to 15, or the default tags. */
  lemma FallbackDigestTags(p: Paper, triage: Json, usedFulltext: bool, notes: string)
    requires SummaryFallback(p, triage, usedFulltext, notes).Ok?
    ensures Get(SummaryFallback(p, triage, usedFulltext, notes).value, "digest_tags") == Some(FallbackTags(triage).value)
  {
    LookupAt(FallbackFields(p, triage, FallbackTags(triage).value, usedFulltext, notes), 13, "digest_tags");
  }

  /** The fallback keeps the caller's `used_fulltext`. */
  lemma FallbackUsedFulltext(p: Paper, triage: Json, usedFulltext: bool, notes: string)
    requires SummaryFallback(p, triage, usedFulltext, notes).Ok?
    ensures Get(SummaryFallback(p, triage, usedFulltext, notes).value, "used_fulltext") == Some(Bool(usedFulltext))
  {
    LookupAt(FallbackFields(p, triage, FallbackTags(triage).value, usedFulltext, notes), 14, "used_fulltext");
  }

  /** The fallback appends the error marker to the caller's notes. */
  lemma FallbackNotes(p: Paper, triage: Json, usedFulltext: bool, notes: string)
    requires SummaryFallback(p, triage, usedFulltext, notes).Ok?
    ensures Get(SummaryFallback(p, triage, usedFulltext, notes).value, "notes") == Some(Str(notes + "; summary_json_error"))
  {
    LookupAt(FallbackFields(p, triage, FallbackTags(triage).value, usedFulltext, notes), 15, "notes");
  }

  /** `summarize_paper` on the replies the first and the second call would give. */
  function SummaryOutcome(p: Paper, triage: Json, textWindow: string, usedFulltext: bool, notes: string,
                          promptTemplate: string, repairTemplate: string, schema: Schema, codec: Codec,
                          first: Reply, second: Reply): Outcome
  {
    Protocol(SummaryPrompt(promptTemplate, p, triage, textWindow, codec), repairTemplate,
             codec.dumps(schema.doc), first, second,
             SummaryAttemptFn(codec, schema, usedFulltext, notes),
             SummaryFallback(p, triage, usedFulltext, notes))
  }

  /** `summarize_paper(paper, triage, text_window, used_fulltext, notes, llm, …)` */
  method SummarizePaper(p: Paper, triage: Json, textWindow: string, usedFulltext: bool, notes: string,
                        llm: Llm, promptTemplate: string, repairTemplate: string,
                        schema: Schema, codec: Codec) returns (r: Result<Json>)
    modifies llm
    ensures var o := SummaryOutcome(p, triage, textWindow, usedFulltext, notes, promptTemplate,
                                    repairTemplate, schema, codec, old(llm.Upcoming(0)), old(llm.Upcoming(1)));
      r == o.result &&
      llm.prompts == old(llm.prompts) + o.sent &&
      llm.calls == old(llm.calls) + |o.sent|
    ensures llm.outputs == old(llm.outputs)
  {
    r := ValidatedGenerate(llm, SummaryPrompt(promptTemplate, p, triage, textWindow, codec), repairTemplate,
                           codec.dumps(schema.doc), SummaryAttemptFn(codec, schema, usedFulltext, notes),
                           SummaryFallback(p, triage, usedFulltext, notes));
  }

  /** Whatever the model emitted, a returned summary carries the caller's `used_fulltext`;
      its notes are the caller's notes on either success path and the notes with the error
      marker in the fallback. A summary that is not the fallback passed the schema. */
  lemma SummaryStamped(p: Paper, triage: Json, textWindow: string, usedFulltext: bool, notes: string,
                       promptTemplate: string, repairTemplate: string, schema: Schema, codec: Codec,
                       first: Reply, second: Reply)
    ensures var o := SummaryOutcome(p, triage, textWindow, usedFulltext, notes, promptTemplate,
                                    repairTemplate, schema, codec, first, second);
      1 <= |o.sent| <= 2 &&
      (o.result.Ok? ==> Get(o.result.value, "used_fulltext") == Some(Bool(usedFulltext))) &&
      (o.result.Ok? && o.result != SummaryFallback(p, triage, usedFulltext, notes) ==>
        Get(o.result.value, "notes") == Some(Str(notes)) && schema.accepts(o.result.value)) &&
      (o.result.Ok? && o.result == SummaryFallback(p, triage, usedFulltext, notes) ==>
        Get(o.result.value, "notes") == Some(Str(notes + "; summary_json_error")))
  {
    var o := SummaryOutcome(p, triage, textWindow, usedFulltext, notes, promptTemplate,
                            repairTemplate, schema, codec, first, second);
    var attempt := SummaryAttemptFn(codec, schema, usedFulltext, notes);
    var fb := SummaryFallback(p, triage, usedFulltext, notes);
    if o.result.Ok? {
      if o.result == fb {
        FallbackUsedFulltext(p, triage, usedFulltext, notes);
        FallbackNotes(p, triage, usedFulltext, notes);
      } else {
        var v := o.result.value;
        var raw := if first.Returned? && attempt(first.text) == Some(v) then first.text else second.text;
        assert SummaryAttempt(codec, schema, usedFulltext, notes, raw) == Some(v);
      }
    }
  }

  /** The fallback path of the project's own test: when neither output can be read, the
      result is the fallback, after exactly two calls; it carries the paper's id, the caller's
      `used_fulltext` and the error marker after the caller's notes. */
  lemma SummaryFallbackPath(p: Paper, triage: Json, textWindow: string, usedFulltext: bool, notes: string,
                            promptTemplate: string, repairTemplate: string, schema: Schema, codec: Codec,
                            bad1: string, bad2: string)
    requires codec.parse(bad1) == None && codec.parse(bad2) == None
    requires SummaryFallback(p, triage, usedFulltext, notes).Ok?
    ensures var o := SummaryOutcome(p, triage, textWindow, usedFulltext, notes, promptTemplate,
                                    repairTemplate, schema, codec, Returned(bad1), Returned(bad2));
      o.result == SummaryFallback(p, triage, usedFulltext, notes) && |o.sent| == 2 &&
      Get(o.result.value, "arxiv_id_base") == Some(Str(p.idBase)) &&
      Get(o.result.value, "used_fulltext") == Some(Bool(usedFulltext)) &&
      Get(o.result.value, "notes") == Some(Str(notes + "; summary_json_error"))
  {
    FallbackIdBase(p, triage, usedFulltext, notes);
    FallbackUsedFulltext(p, triage, usedFulltext, notes);
    FallbackNotes(p, triage, usedFulltext, notes);
    assert SummaryAttempt(codec, schema, usedFulltext, notes, bad1) == None;
    assert SummaryAttempt(codec, schema, usedFulltext, notes, bad2) == None;
  }
}
