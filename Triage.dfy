/** Relevance triage of one candidate paper: the decision policy applied to the model's
    verdict, and `triage_paper`'s generate / repair / fallback sequence. */
module Triage {
  import opened Base
  import opened Strings
  import opened JsonValue
  import opened Records
  import opened Generation

  /** `validate_json`: nothing when the schema accepts the record, otherwise the
      SchemaValidationError it raises (an ordinary exception). */
  function ValidateJson(data: Json, schema: Schema): (r: Option<Exc>)
    ensures r.None? <==> schema.accepts(data)
    ensures r.Some? ==> r.value.name == "SchemaValidationError" && CaughtByExceptClause(r.value)
  {
    if schema.accepts(data) then None else Some(Raise("SchemaValidationError"))
  }

  /** `float(decision.get("confidence", 0.0))`; None when `float` raises. */
  function Confidence(d: Json, codec: Codec): (r: Option<real>)
    ensures Get(d, "confidence") == None ==> r == Some(0.0)
  {
    ToFloat(GetOr(d, "confidence", Float(0.0)), codec)
  }

  /** Both relatedness flags are truthy (a missing flag is None, which is not). */
  predicate BothRelated(d: Json) {
    Truthy(GetOr(d, "is_eeg_related", Null)) && Truthy(GetOr(d, "is_foundation_model_related", Null))
  }

  /** `apply_decision_policy`, which updates the record in place and returns it. None when it
      raises: the record is not a dict, or its confidence is not a number `float` can read. */
  function ApplyDecisionPolicy(d: Json, codec: Codec): (r: Option<Json>)
    ensures r.Some? <==> d.Obj? && Confidence(d, codec).Some?
    ensures r.Some? ==> r.value.Obj?
    // nothing but `decision` and `borderline` changes
    ensures r.Some? ==> forall k :: k != "decision" && k != "borderline" ==> Get(r.value, k) == Get(d, k)
    ensures r.Some? ==> var conf := Confidence(d, codec).value;
      // accept: both flags and confidence at least 0.6
      (BothRelated(d) && conf >= 0.6 ==>
        Get(r.value, "decision") == Some(Str("accept")) && Get(r.value, "borderline") == Some(Bool(false))) &&
      // borderline: otherwise, confidence at least 0.35
      (!(BothRelated(d) && conf >= 0.6) && conf >= 0.35 ==>
        Get(r.value, "decision") == Some(Str("borderline")) && Get(r.value, "borderline") == Some(Bool(true))) &&
      // reject: otherwise; the borderline flag is left as it was
      (!(BothRelated(d) && conf >= 0.6) && conf < 0.35 ==>
        Get(r.value, "decision") == Some(Str("reject")) && Get(r.value, "borderline") == Get(d, "borderline"))
  {
    if !d.Obj? then None
    else match Confidence(d, codec)
      case None => None
      case Some(conf) =>
        if BothRelated(d) && conf >= 0.6 then
          Some(Set(Set(d, "decision", Str("accept")), "borderline", Bool(false)))
        else if conf >= 0.35 then
          Some(Set(Set(d, "decision", Str("borderline")), "borderline", Bool(true)))
        else
          Some(Set(d, "decision", Str("reject")))
  }

  /** The decision field of a record, when it holds one of the three decisions. */
  predicate HasDecision(d: Json) {
    Get(d, "decision") in {Some(Str("accept")), Some(Str("borderline")), Some(Str("reject"))}
  }

  /** Every record the policy returns carries one of the three decisions. */
  lemma PolicyDecides(d: Json, codec: Codec)
    requires ApplyDecisionPolicy(d, codec).Some?
    ensures HasDecision(ApplyDecisionPolicy(d, codec).value)
  {
  }

  /** A record with no confidence is rejected (confidence counts as 0.0). */
  lemma MissingConfidenceRejects(d: Json, codec: Codec)
    requires d.Obj? && Get(d, "confidence") == None
    ensures ApplyDecisionPolicy(d, codec).Some?
    ensures Get(ApplyDecisionPolicy(d, codec).value, "decision") == Some(Str("reject"))
  {
  }

  /** Applying the policy a second time changes nothing. */
  lemma PolicyIdempotent(d: Json, codec: Codec)
    requires ApplyDecisionPolicy(d, codec).Some?
    ensures ApplyDecisionPolicy(ApplyDecisionPolicy(d, codec).value, codec) == ApplyDecisionPolicy(d, codec)
  {
    var e := ApplyDecisionPolicy(d, codec).value;
    PolicyKeepsInputs(d, e, codec);
    var conf := Confidence(d, codec).value;
    if BothRelated(d) && conf >= 0.6 {
      AcceptStable(e, codec);
    } else if conf >= 0.35 {
      BorderlineStable(e, codec);
    } else {
      RejectStable(e, codec);
    }
  }

  /** The policy leaves what it reads (the flags and the confidence) as they were. */
  lemma PolicyKeepsInputs(d: Json, e: Json, codec: Codec)
    requires ApplyDecisionPolicy(d, codec) == Some(e)
    ensures e.Obj? && Confidence(e, codec) == Confidence(d, codec) && BothRelated(e) == BothRelated(d)
  {
    var conf := Confidence(d, codec).value;
    if BothRelated(d) && conf >= 0.6 {
      assert e == Set(Set(d, "decision", Str("accept")), "borderline", Bool(false));
    } else if conf >= 0.35 {
      assert e == Set(Set(d, "decision", Str("borderline")), "borderline", Bool(true));
    } else {
      assert e == Set(d, "decision", Str("reject"));
    }
    assert Get(e, "confidence") == Get(d, "confidence");
    assert Get(e, "is_eeg_related") == Get(d, "is_eeg_related");
    assert Get(e, "is_foundation_model_related") == Get(d, "is_foundation_model_related");
  }

  lemma AcceptStable(d: Json, codec: Codec)
    requires d.Obj? && Confidence(d, codec).Some?
    requires BothRelated(d) && Confidence(d, codec).value >= 0.6
    requires Get(d, "decision") == Some(Str("accept")) && Get(d, "borderline") == Some(Bool(false))
    ensures ApplyDecisionPolicy(d, codec) == Some(d)
  {
    SetUnchanged(d, "decision", Str("accept"));
    SetUnchanged(d, "borderline", Bool(false));
  }

  lemma BorderlineStable(d: Json, codec: Codec)
    requires d.Obj? && Confidence(d, codec).Some?
    requires !(BothRelated(d) && Confidence(d, codec).value >= 0.6) && Confidence(d, codec).value >= 0.35
    requires Get(d, "decision") == Some(Str("borderline")) && Get(d, "borderline") == Some(Bool(true))
    ensures ApplyDecisionPolicy(d, codec) == Some(d)
  {
    SetUnchanged(d, "decision", Str("borderline"));
    SetUnchanged(d, "borderline", Bool(true));
  }

  /** Below 0.35 the policy only writes "reject". */
  lemma LowConfidenceRejects(d: Json, codec: Codec)
    requires d.Obj? && Confidence(d, codec).Some? && Confidence(d, codec).value < 0.35
    ensures ApplyDecisionPolicy(d, codec) == Some(Set(d, "decision", Str("reject")))
  {
  }

  /** A rejected record whose confidence is below 0.35 is left as it is. */
  lemma RejectStable(d: Json, codec: Codec)
    requires d.Obj? && Confidence(d, codec).Some? && Confidence(d, codec).value < 0.35
    requires Get(d, "decision") == Some(Str("reject"))
    ensures ApplyDecisionPolicy(d, codec) == Some(d)
  {
    LowConfidenceRejects(d, codec);
    SetUnchanged(d, "decision", Str("reject"));
  }

  /** The record `triage_paper` falls back to when the repair also fails. */
  function TriageFallback(id: string): Json {
    Obj([
      ("arxiv_id_base", Str(id)),
      ("is_eeg_related", Bool(false)),
      ("is_foundation_model_related", Bool(false)),
      ("borderline", Bool(false)),
      ("paper_type", Str("other")),
      ("confidence", Float(0.0)),
      ("reasons", StrList(["triage_json_error"])),
      ("suggested_digest_tags", Arr([])),
      ("decision", Str("reject"))])
  }

  /** The fallback record is one the policy would leave exactly as it is. */
  lemma FallbackStable(id: string, codec: Codec)
    ensures ApplyDecisionPolicy(TriageFallback(id), codec) == Some(TriageFallback(id))
  {
    var f := TriageFallback(id);
    assert !BothRelated(f) by {
      LookupAt(f.fields, 1, "is_eeg_related");
    }
    assert Confidence(f, codec) == Some(0.0) by {
      LookupAt(f.fields, 5, "confidence");
    }
    assert Get(f, "decision") == Some(Str("reject")) by {
      LookupAt(f.fields, 8, "decision");
    }
    RejectStable(f, codec);
  }

  /** The input record the prompt is built from. */
  function TriagePayload(p: Paper): Json {
    Obj([
      ("arxiv_id_base", Str(p.idBase)),
      ("title", Str(p.title)),
      ("authors", StrList(p.authors)),
      ("categories", StrList(p.categories)),
      ("published_date", Str(PublishedDate(p))),
      ("abstract", Str(p.summary)),
      ("links", LinksJson(p.links))])
  }

  /** The prompt: every `{{INPUT_JSON}}` in the template replaced by the payload's JSON. */
  function TriagePrompt(template: string, p: Paper, codec: Codec): string {
    ReplaceAll(template, "{{INPUT_JSON}}", codec.dumps(TriagePayload(p)))
  }

  /** Read, apply the policy, validate: None when any of the three raises. */
  function TriageAttempt(codec: Codec, schema: Schema, raw: string): (r: Option<Json>)
    ensures r.Some? ==> schema.accepts(r.value)
    ensures r.Some? ==> exists d :: codec.parse(raw) == Some(d) && ApplyDecisionPolicy(d, codec) == r
  {
    match codec.parse(raw)
    case None => None
    case Some(d) =>
      match ApplyDecisionPolicy(d, codec)
      case None => None
      case Some(e) => if ValidateJson(e, schema).None? then Some(e) else None
  }

  function TriageAttemptFn(codec: Codec, schema: Schema): string -> Option<Json> {
    raw => TriageAttempt(codec, schema, raw)
  }

  /** `triage_paper` on the replies the first and the second call would give. */
  function TriageOutcome(p: Paper, promptTemplate: string, repairTemplate: string,
                         schema: Schema, codec: Codec, first: Reply, second: Reply): Outcome
  {
    Protocol(TriagePrompt(promptTemplate, p, codec), repairTemplate, codec.dumps(schema.doc),
             first, second, TriageAttemptFn(codec, schema), Ok(TriageFallback(p.idBase)))
  }

  /** `triage_paper(paper, llm, prompt_template, repair_template, schema)` */
  method TriagePaper(p: Paper, llm: Llm, promptTemplate: string, repairTemplate: string,
                     schema: Schema, codec: Codec) returns (r: Result<Json>)
    modifies llm
    ensures var o := TriageOutcome(p, promptTemplate, repairTemplate, schema, codec,
                                   old(llm.Upcoming(0)), old(llm.Upcoming(1)));
      r == o.result &&
      llm.prompts == old(llm.prompts) + o.sent &&
      llm.calls == old(llm.calls) + |o.sent|
    ensures llm.outputs == old(llm.outputs)
  {
    r := ValidatedGenerate(llm, TriagePrompt(promptTemplate, p, codec), repairTemplate,
                           codec.dumps(schema.doc), TriageAttemptFn(codec, schema),
                           Ok(TriageFallback(p.idBase)));
  }

  /** Whatever the model says, triage makes one or two calls; a record it returns carries one
      of the three decisions, is one the policy leaves as it is, and either passed the schema
      or is the fallback; it raises only what the model raised. */
  lemma TriageSound(p: Paper, promptTemplate: string, repairTemplate: string,
                    schema: Schema, codec: Codec, first: Reply, second: Reply)
    ensures var o := TriageOutcome(p, promptTemplate, repairTemplate, schema, codec, first, second);
      1 <= |o.sent| <= 2 &&
      (o.result.Ok? ==>
        HasDecision(o.result.value) &&
        ApplyDecisionPolicy(o.result.value, codec) == Some(o.result.value) &&
        (schema.accepts(o.result.value) || o.result.value == TriageFallback(p.idBase))) &&
      (o.result.Err? ==> first == Raised(o.result.exc) || (second == Raised(o.result.exc) && o.result.exc.fatal))
  {
    var o := TriageOutcome(p, promptTemplate, repairTemplate, schema, codec, first, second);
    var attempt := TriageAttemptFn(codec, schema);
    if o.result.Ok? {
      var v := o.result.value;
      if o.result == Ok(TriageFallback(p.idBase)) {
        FallbackStable(p.idBase, codec);
      } else {
        var raw := if first.Returned? && attempt(first.text) == Some(v) then first.text else second.text;
        assert TriageAttempt(codec, schema, raw) == Some(v);
        var d :| codec.parse(raw) == Some(d) && ApplyDecisionPolicy(d, codec) == Some(v);
        PolicyDecides(d, codec);
        PolicyIdempotent(d, codec);
      }
    }
  }

  /** The repair path of the project's own test: an unreadable first output and a readable,
      valid accept record as the repair give that record, after exactly two calls. */
  lemma TriageRepairPath(p: Paper, promptTemplate: string, repairTemplate: string,
                         schema: Schema, codec: Codec, bad: string, fixed: string, d: Json)
    requires codec.parse(bad) == None && codec.parse(fixed) == Some(d)
    requires d.Obj? && Get(d, "is_eeg_related") == Some(Bool(true))
    requires Get(d, "is_foundation_model_related") == Some(Bool(true))
    requires Get(d, "confidence") == Some(Float(0.8))
    requires Get(d, "decision") == Some(Str("accept")) && Get(d, "borderline") == Some(Bool(false))
    requires schema.accepts(d)
    ensures var o := TriageOutcome(p, promptTemplate, repairTemplate, schema, codec,
                                   Returned(bad), Returned(fixed));
      o.result == Ok(d) && |o.sent| == 2 && Get(d, "decision") == Some(Str("accept"))
  {
    assert Confidence(d, codec) == Some(0.8);
    AcceptStable(d, codec);
    assert TriageAttempt(codec, schema, bad) == None;
    assert TriageAttempt(codec, schema, fixed) == Some(d);
  }
}
