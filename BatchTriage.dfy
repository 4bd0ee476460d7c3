/** The triage phase of the batch runner: the four-key row it keeps for each candidate, the
    view of a triage record it puts next to a summary, the ids an earlier run recorded as
    failed with a client error, and the loop that triages a month's candidates against the
    cache of earlier verdicts. */
module BatchTriage {
  import opened Base
  import opened Strings
  import opened JsonValue
  import opened Ordering
  import opened Records

  /** The reasons of a record as a list: a list as it is, anything else wrapped as the
      one-entry list of its `str()`. */
  function ReasonList(given: Json): seq<Json> {
    if given.Arr? then given.items else [Str(Display(given))]
  }

  /** `float(v)`: ValueError for text it cannot read, TypeError for a value of another type. */
  function FloatOf(v: Json, codec: Codec): (r: Result<real>)
    ensures r.Ok? <==> ToFloat(v, codec).Some?
    ensures r.Ok? ==> r.value == ToFloat(v, codec).value
    ensures r.Err? ==> CaughtByExceptClause(r.exc)
  {
    match ToFloat(v, codec)
    case Some(x) => Ok(x)
    case None => Err(Raise(if v.Str? then "ValueError" else "TypeError"))
  }

  const RowKeys: seq<string> := ["arxiv_id_base", "decision", "confidence", "reasons"]

  /** A triage row as the batch runner writes it. */
  function Row(aid: string, decision: Json, confidence: real, reasons: seq<Json>): Json {
    Obj([("arxiv_id_base", Str(aid)), ("decision", decision), ("confidence", Float(confidence)),
         ("reasons", Arr(reasons))])
  }

  /** `row` has exactly the four keys of a triage row, and `aid` as its id. */
  predicate RowOf(row: Json, aid: string) {
    Keys(row) == RowKeys && Get(row, "arxiv_id_base") == Some(Str(aid))
  }

  /** A row has exactly the four keys, in order, holding the values it was built from. */
  lemma RowFields(aid: string, decision: Json, confidence: real, reasons: seq<Json>)
    ensures var row := Row(aid, decision, confidence, reasons);
      Keys(row) == RowKeys &&
      Get(row, "arxiv_id_base") == Some(Str(aid)) &&
      Get(row, "decision") == Some(decision) &&
      Get(row, "confidence") == Some(Float(confidence)) &&
      Get(row, "reasons") == Some(Arr(reasons))
  {
    var fs := Row(aid, decision, confidence, reasons).fields;
    LookupAt(fs, 0, "arxiv_id_base");
    LookupAt(fs, 1, "decision");
    LookupAt(fs, 2, "confidence");
    LookupAt(fs, 3, "reasons");
  }

  /** `_normalize_triage_row(arxiv_id_base, result)`: the id given, the decision (default
      "reject"), the confidence as a float (default 0.0) and the reasons as a list. `.get` on a
      record that is not a dict raises, and so does `float` on an unreadable confidence. */
  function NormalizeTriageRow(aid: string, result: Json, codec: Codec): (r: Result<Json>)
    ensures r.Ok? <==> result.Obj? && ToFloat(GetOr(result, "confidence", Float(0.0)), codec).Some?
    ensures r.Err? ==> CaughtByExceptClause(r.exc)
    ensures r.Ok? ==> r.value == Row(aid, GetOr(result, "decision", Str("reject")),
                                     ToFloat(GetOr(result, "confidence", Float(0.0)), codec).value,
                                     ReasonList(GetOr(result, "reasons", Arr([]))))
  {
    if !result.Obj? then Err(Raise("AttributeError"))
    else
      var reasons := ReasonList(GetOr(result, "reasons", Arr([])));
      var confidence :- FloatOf(GetOr(result, "confidence", Float(0.0)), codec);
      Ok(Row(aid, GetOr(result, "decision", Str("reject")), confidence, reasons))
  }

  /** The normalised row has exactly the four keys and the id it was given; a record without a
      decision is a reject, and one without a confidence has 0.0. */
  lemma NormalizedShape(aid: string, result: Json, codec: Codec)
    requires NormalizeTriageRow(aid, result, codec).Ok?
    ensures var row := NormalizeTriageRow(aid, result, codec).value;
      Keys(row) == RowKeys &&
      Get(row, "arxiv_id_base") == Some(Str(aid)) &&
      (Get(result, "decision") == None ==> Get(row, "decision") == Some(Str("reject"))) &&
      (Get(result, "confidence") == None ==> Get(row, "confidence") == Some(Float(0.0))) &&
      (exists reasons :: Get(row, "reasons") == Some(Arr(reasons)))
  {
    var conf := ToFloat(GetOr(result, "confidence", Float(0.0)), codec).value;
    var reasons := ReasonList(GetOr(result, "reasons", Arr([])));
    RowFields(aid, GetOr(result, "decision", Str("reject")), conf, reasons);
  }

  /** Normalising a normalised row gives it back. */
  lemma NormalizeIdempotent(aid: string, result: Json, codec: Codec)
    requires NormalizeTriageRow(aid, result, codec).Ok?
    ensures var row := NormalizeTriageRow(aid, result, codec).value;
      NormalizeTriageRow(aid, row, codec) == Ok(row)
  {
    var conf := ToFloat(GetOr(result, "confidence", Float(0.0)), codec).value;
    var reasons := ReasonList(GetOr(result, "reasons", Arr([])));
    var decision := GetOr(result, "decision", Str("reject"));
    RowFields(aid, decision, conf, reasons);
  }

  /** `_triage_view(triage)`: the decision, confidence and reasons of a triage record, with the
      same defaults. A falsy record (None, or an empty dict) reads as an empty dict; `.get`
      on anything else that is not a dict raises, and so does `float` on an unreadable
      confidence. */
  function TriageView(triage: Json, codec: Codec): (r: Result<Json>)
    ensures !Truthy(triage) ==>
      r == Ok(Obj([("decision", Str("reject")), ("confidence", Float(0.0)), ("reasons", Arr([]))]))
    ensures r.Ok? ==> Keys(r.value) == ["decision", "confidence", "reasons"]
    ensures r.Err? <==> Truthy(triage) && (!triage.Obj? || ToFloat(GetOr(triage, "confidence", Float(0.0)), codec).None?)
  {
    var t := if Truthy(triage) then triage else Obj([]);
    if !t.Obj? then Err(Raise("AttributeError"))
    else
      var confidence :- FloatOf(GetOr(t, "confidence", Float(0.0)), codec);
      Ok(Obj([("decision", GetOr(t, "decision", Str("reject"))), ("confidence", Float(confidence)),
              ("reasons", Arr(ReasonList(GetOr(t, "reasons", Arr([])))))]))
  }

  /** The view of a normalised row is the view of the record it was normalised from: the
      summary phase shows the same verdict whether it reads the fresh record or the row. */
  lemma ViewOfNormalized(aid: string, result: Json, codec: Codec)
    requires NormalizeTriageRow(aid, result, codec).Ok?
    ensures TriageView(NormalizeTriageRow(aid, result, codec).value, codec) == TriageView(result, codec)
  {
    var conf := ToFloat(GetOr(result, "confidence", Float(0.0)), codec).value;
    var reasons := ReasonList(GetOr(result, "reasons", Arr([])));
    var decision := GetOr(result, "decision", Str("reject"));
    RowFields(aid, decision, conf, reasons);
    assert (if Truthy(result) then result else Obj([])) == result;
  }

  /** The row kept when triage raises an ordinary exception: a reject with confidence 0.0,
      the exception's class named in the first reason and the fallback noted in the second. */
  function FallbackRow(aid: string, name: string): Json {
    Row(aid, Str("reject"), 0.0, [Str("triage_exception:" + name), Str("automatic_reject_fallback")])
  }

  /** The fallback row is a reject with confidence 0.0 that normalising leaves as it is. */
  lemma FallbackRowStable(aid: string, name: string, codec: Codec)
    ensures NormalizeTriageRow(aid, FallbackRow(aid, name), codec) == Ok(FallbackRow(aid, name))
    ensures Get(FallbackRow(aid, name), "decision") == Some(Str("reject"))
    ensures Get(FallbackRow(aid, name), "confidence") == Some(Float(0.0))
    ensures Keys(FallbackRow(aid, name)) == RowKeys
    ensures Get(FallbackRow(aid, name), "arxiv_id_base") == Some(Str(aid))
  {
    RowFields(aid, Str("reject"), 0.0, [Str("triage_exception:" + name), Str("automatic_reject_fallback")]);
  }

  const ClientErrorMark: string := "triage_exception:ClientError"

  /** Some reason, as text, mentions a client error. */
  predicate MentionsClientError(reasons: seq<Json>) {
    exists i :: 0 <= i < |reasons| && Contains(Display(reasons[i]), ClientErrorMark)
  }

  /** What one row of an earlier run's triage output contributes to the ids failed with a
      client error: its `arxiv_id_base` when some reason mentions the error and the id is a
      non-empty string. `.get` on a row that is not a dict raises. */
  function ClientErrorId(row: Json): (r: Result<Option<string>>)
    ensures r.Err? <==> !row.Obj?
  {
    if !row.Obj? then Err(Raise("AttributeError"))
    else if !MentionsClientError(ReasonList(GetOr(row, "reasons", Arr([])))) then Ok(None)
    else
      var aid := GetOr(row, "arxiv_id_base", Null);
      if aid.Str? && aid.s != [] then Ok(Some(aid.s)) else Ok(None)
  }

  /** A dict row contributes its id exactly when some reason mentions a client error and the
      id is a non-empty string. */
  lemma ClientErrorIdMeaning(row: Json, x: string)
    requires row.Obj?
    ensures ClientErrorId(row) == Ok(Some(x)) <==>
      MentionsClientError(ReasonList(GetOr(row, "reasons", Arr([])))) &&
      x != [] && Get(row, "arxiv_id_base") == Some(Str(x))
  {
  }

  /** A scan that gathers, row by row from the front, the id each row contributes, and stops
      at the first row that raises. */
  function CollectIds(rows: seq<Json>, idOf: Json -> Result<Option<string>>): Result<set<string>>
    decreases |rows|
  {
    if |rows| == 0 then Ok({})
    else
      var ids := CollectIds(rows[..|rows| - 1], idOf);
      if ids.Err? then ids
      else match idOf(rows[|rows| - 1])
        case Err(e) => Err(e)
        case Ok(id) => Ok(if id.Some? then ids.value + {id.value} else ids.value)
  }

  /** The scan fails exactly when some row raises. */
  lemma {:induction false} CollectIdsFails(rows: seq<Json>, idOf: Json -> Result<Option<string>>)
    ensures CollectIds(rows, idOf).Ok? <==> forall i :: 0 <= i < |rows| ==> idOf(rows[i]).Ok?
    decreases |rows|
  {
    if |rows| > 0 {
      var init := rows[..|rows| - 1];
      CollectIdsFails(init, idOf);
      if CollectIds(init, idOf).Err? {
        var i :| 0 <= i < |init| && idOf(init[i]).Err?;
        assert init[i] == rows[i];
      } else if idOf(rows[|rows| - 1]).Ok? {
        forall i | 0 <= i < |rows|
          ensures idOf(rows[i]).Ok?
        {
          if i < |init| {
            assert init[i] == rows[i];
          }
        }
      }
    }
  }

  /** The ids gathered are exactly those some row contributes. */
  lemma {:induction false} CollectIdsMembers(rows: seq<Json>, idOf: Json -> Result<Option<string>>, x: string)
    requires CollectIds(rows, idOf).Ok?
    ensures x in CollectIds(rows, idOf).value <==> exists i :: 0 <= i < |rows| && idOf(rows[i]) == Ok(Some(x))
    decreases |rows|
  {
    if |rows| > 0 {
      var init := rows[..|rows| - 1];
      CollectIdsMembers(init, idOf, x);
      if exists i :: 0 <= i < |rows| && idOf(rows[i]) == Ok(Some(x)) {
        var i :| 0 <= i < |rows| && idOf(rows[i]) == Ok(Some(x));
        if i < |init| {
          assert init[i] == rows[i];
        }
      }
      if exists i :: 0 <= i < |init| && idOf(init[i]) == Ok(Some(x)) {
        var i :| 0 <= i < |init| && idOf(init[i]) == Ok(Some(x));
        assert init[i] == rows[i];
      }
    }
  }

  /** Once the scan has failed, the rest of the rows change nothing. */
  lemma {:induction false} CollectIdsStopped(rows: seq<Json>, idOf: Json -> Result<Option<string>>, k: int)
    requires 0 <= k <= |rows| && CollectIds(rows[..k], idOf).Err?
    ensures CollectIds(rows, idOf) == CollectIds(rows[..k], idOf)
    decreases |rows|
  {
    if k == |rows| {
      assert rows[..k] == rows;
    } else {
      var init := rows[..|rows| - 1];
      assert init[..k] == rows[..k];
      CollectIdsStopped(init, idOf, k);
    }
  }

  /** `_triage_client_error_ids` over the rows of the earlier output; reading the file is left
      to the caller. */
  function ClientErrorIds(rows: seq<Json>): Result<set<string>> {
    CollectIds(rows, ClientErrorId)
  }

  /** The scan fails exactly when some row is not a dict, and otherwise gathers exactly the ids
      the rows contribute. */
  lemma ClientErrorIdsMembers(rows: seq<Json>, x: string)
    ensures ClientErrorIds(rows).Ok? <==> forall i :: 0 <= i < |rows| ==> rows[i].Obj?
    ensures ClientErrorIds(rows).Ok? ==>
      (x in ClientErrorIds(rows).value <==> exists i :: 0 <= i < |rows| && ClientErrorId(rows[i]) == Ok(Some(x)))
  {
    CollectIdsFails(rows, ClientErrorId);
    if ClientErrorIds(rows).Ok? {
      CollectIdsMembers(rows, ClientErrorId, x);
    }
  }

  /** `_triage_client_error_ids`, adding to a set in a loop. No code in batch.py calls the
      function; it is modelled as defined. */
  method TriageClientErrorIds(rows: seq<Json>) returns (r: Result<set<string>>)
    ensures r == ClientErrorIds(rows)
  {
    var ids: set<string> := {};
    var i := 0;
    while i < |rows|
      invariant 0 <= i <= |rows|
      invariant CollectIds(rows[..i], ClientErrorId) == Ok(ids)
    {
      assert rows[..i + 1][..i] == rows[..i];
      var id := ClientErrorId(rows[i]);
      if id.Err? {
        CollectIdsStopped(rows, ClientErrorId, i + 1);
        return id.PropagateFailure();
      }
      if id.value.Some? {
        ids := ids + {id.value.value};
      }
      i := i + 1;
    }
    assert i == |rows|;
    assert rows[..i] == rows;
    r := Ok(ids);
  }

  /** The row for one candidate. A truthy cached record (none under `force`) is normalised
      outside the `try`, so its failure stops the phase. Otherwise triage's record is
      normalised inside it: a fatal exception (`RateLimitStop`) is re-raised, and any other
      exception, from triage or from normalising, gives the fallback row. */
  function TriageStep(aid: string, cached: Json, verdict: Result<Json>, codec: Codec): (r: Result<Json>)
    ensures r.Ok? ==> RowOf(r.value, aid)
    ensures Truthy(cached) ==> r == NormalizeTriageRow(aid, cached, codec)
    ensures !Truthy(cached) && verdict.Err? && verdict.exc.fatal ==> r == Err(verdict.exc)
    ensures !Truthy(cached) && verdict.Err? && !verdict.exc.fatal ==> r == Ok(FallbackRow(aid, verdict.exc.name))
    ensures !Truthy(cached) && verdict.Ok? ==> r.Ok?
    ensures !Truthy(cached) && verdict.Ok? && NormalizeTriageRow(aid, verdict.value, codec).Ok? ==>
      r == NormalizeTriageRow(aid, verdict.value, codec)
  {
    if Truthy(cached) then
      var n := NormalizeTriageRow(aid, cached, codec);
      if n.Ok? then NormalizedShape(aid, cached, codec); n else n
    else match verdict
      case Err(e) =>
        if e.fatal then Err(e) else FallbackRowStable(aid, e.name, codec); Ok(FallbackRow(aid, e.name))
      case Ok(result) =>
        var n := NormalizeTriageRow(aid, result, codec);
        if n.Ok? then NormalizedShape(aid, result, codec); n
        else FallbackRowStable(aid, n.exc.name, codec); Ok(FallbackRow(aid, n.exc.name))
  }

  /** The cache's record for a candidate, as the loop sees it: None under `force` or when
      nothing is cached. */
  function Cached(cache: map<string, Json>, aid: string, force: bool): Json {
    if force || aid !in cache then Null else cache[aid]
  }

  /** Where the triage loop stands: the rows so far, the cache, and the exception that
      stopped it, if any. */
  datatype Phase = Phase(rows: seq<Json>, cache: map<string, Json>, stopped: Option<Exc>)

  /** One turn of the triage loop: the candidate's row is appended, and a row from triage
      is upserted to the cache; a failure stops the loop, and a stopped loop stays as it is. */
  function Advance(ph: Phase, p: Paper, verdict: Result<Json>, force: bool, codec: Codec): (r: Phase)
    ensures ph.stopped.Some? ==> r == ph
    ensures r.stopped.Some? ==> r.rows == ph.rows && r.cache == ph.cache
    ensures r.stopped.None? ==>
      ph.stopped.None? && |r.rows| == |ph.rows| + 1 && r.rows[..|ph.rows|] == ph.rows &&
      RowOf(r.rows[|ph.rows|], p.idBase) && p.idBase in r.cache
    ensures ph.cache.Keys <= r.cache.Keys <= ph.cache.Keys + {p.idBase}
    // only a fatal exception from triage, or a cached record, stops the loop
    ensures ph.stopped.None? && r.stopped.Some? ==>
      (verdict == Err(r.stopped.value) && r.stopped.value.fatal) || (!force && p.idBase in ph.cache)
  {
    if ph.stopped.Some? then ph
    else
      var aid := p.idBase;
      var cached := Cached(ph.cache, aid, force);
      match TriageStep(aid, cached, verdict, codec)
      case Err(e) => Phase(ph.rows, ph.cache, Some(e))
      case Ok(row) =>
        var rows := ph.rows + [row];
        assert rows[..|ph.rows|] == ph.rows;
        Phase(rows, if Truthy(cached) then ph.cache else ph.cache[aid := row], None)
  }

  /** The triage loop over the candidates, given what triage would give for each one. A row
      from triage is upserted to the cache before the next candidate is looked up, so a
      repeated id finds the row of its first occurrence. */
  function TriageRun(cands: seq<Paper>, verdicts: seq<Result<Json>>, force: bool,
                     cache: map<string, Json>, codec: Codec): (ph: Phase)
    requires |verdicts| == |cands|
    decreases |cands|
  {
    if |cands| == 0 then Phase([], cache, None)
    else
      var n := |cands| - 1;
      Advance(TriageRun(cands[..n], verdicts[..n], force, cache, codec), cands[n], verdicts[n], force, codec)
  }

  /** The last candidate's turn, on the phase the earlier candidates left. */
  lemma TriageRunLast(cands: seq<Paper>, verdicts: seq<Result<Json>>, force: bool,
                      cache: map<string, Json>, codec: Codec)
    requires |verdicts| == |cands| > 0
    ensures var n := |cands| - 1;
      TriageRun(cands, verdicts, force, cache, codec) ==
      Advance(TriageRun(cands[..n], verdicts[..n], force, cache, codec), cands[n], verdicts[n], force, codec)
  {
  }

  /** A phase has at most one row per candidate, and one for every candidate unless it
      stopped. */
  lemma {:induction false} TriageRunLength(cands: seq<Paper>, verdicts: seq<Result<Json>>, force: bool,
                                           cache: map<string, Json>, codec: Codec)
    requires |verdicts| == |cands|
    ensures var ph := TriageRun(cands, verdicts, force, cache, codec);
      |ph.rows| <= |cands| && (ph.stopped.None? ==> |ph.rows| == |cands|)
    decreases |cands|
  {
    if |cands| > 0 {
      var n := |cands| - 1;
      TriageRunLength(cands[..n], verdicts[..n], force, cache, codec);
    }
  }

  /** Each row, up to the shorter of the two, has the four keys and the id of the candidate
      at its place. */
  predicate RowsMatch(rows: seq<Json>, cands: seq<Paper>) {
    forall i :: 0 <= i < |rows| && i < |cands| ==> RowOf(rows[i], cands[i].idBase)
  }

  lemma RowsMatchPrefix(rows: seq<Json>, cands: seq<Paper>, n: int)
    requires 0 <= n <= |cands| && |rows| <= n && RowsMatch(rows, cands[..n])
    ensures RowsMatch(rows, cands)
  {
    forall i | 0 <= i < |rows| && i < |cands|
      ensures RowOf(rows[i], cands[i].idBase)
    {
      assert cands[..n][i] == cands[i];
    }
  }

  lemma RowsMatchSnoc(rows: seq<Json>, cands: seq<Paper>, row: Json)
    requires |rows| < |cands| && RowsMatch(rows, cands[..|rows|]) && RowOf(row, cands[|rows|].idBase)
    ensures RowsMatch(rows + [row], cands)
  {
    var n := |rows|;
    forall i | 0 <= i < n + 1 && i < |cands|
      ensures RowOf((rows + [row])[i], cands[i].idBase)
    {
      if i < n {
        assert cands[..n][i] == cands[i];
      }
    }
  }

  /** One turn keeps the rows matched to their candidates. */
  lemma AdvanceRows(cands: seq<Paper>, prev: Phase, next: Phase, verdict: Result<Json>, force: bool, codec: Codec)
    requires |cands| > 0 && |prev.rows| <= |cands| - 1 && RowsMatch(prev.rows, cands[..|cands| - 1])
    requires prev.stopped.None? ==> |prev.rows| == |cands| - 1
    requires next == Advance(prev, cands[|cands| - 1], verdict, force, codec)
    ensures RowsMatch(next.rows, cands)
  {
    var n := |cands| - 1;
    if next.stopped.Some? {
      RowsMatchPrefix(prev.rows, cands, n);
    } else {
      assert next.rows == prev.rows + [next.rows[n]];
      RowsMatchSnoc(prev.rows, cands, next.rows[n]);
    }
  }

  /** The rows are in candidate order, each with exactly the four keys and its candidate's id. */
  lemma {:induction false} TriageRunRows(cands: seq<Paper>, verdicts: seq<Result<Json>>, force: bool,
                                         cache: map<string, Json>, codec: Codec)
    requires |verdicts| == |cands|
    ensures RowsMatch(TriageRun(cands, verdicts, force, cache, codec).rows, cands)
    decreases |cands|
  {
    if |cands| > 0 {
      var n := |cands| - 1;
      var prev := TriageRun(cands[..n], verdicts[..n], force, cache, codec);
      TriageRunRows(cands[..n], verdicts[..n], force, cache, codec);
      TriageRunLength(cands[..n], verdicts[..n], force, cache, codec);
      AdvanceRows(cands, prev, TriageRun(cands, verdicts, force, cache, codec), verdicts[n], force, codec);
    }
  }

  /** Every candidate's id is a key of the cache. */
  predicate AllCached(cands: seq<Paper>, cache: map<string, Json>) {
    forall i :: 0 <= i < |cands| ==> cands[i].idBase in cache
  }

  lemma AllCachedSnoc(cands: seq<Paper>, before: map<string, Json>, after: map<string, Json>)
    requires |cands| > 0 && AllCached(cands[..|cands| - 1], before)
    requires before.Keys <= after.Keys && cands[|cands| - 1].idBase in after
    ensures AllCached(cands, after)
  {
    var n := |cands| - 1;
    forall i | 0 <= i < |cands|
      ensures cands[i].idBase in after
    {
      if i < n {
        assert cands[..n][i] == cands[i];
      }
    }
  }

  /** The loop only adds to the cache: every id cached before the run is cached after it. */
  lemma {:induction false} TriageRunCacheGrows(cands: seq<Paper>, verdicts: seq<Result<Json>>, force: bool,
                                               cache: map<string, Json>, codec: Codec)
    requires |verdicts| == |cands|
    ensures cache.Keys <= TriageRun(cands, verdicts, force, cache, codec).cache.Keys
    decreases |cands|
  {
    if |cands| > 0 {
      var n := |cands| - 1;
      TriageRunCacheGrows(cands[..n], verdicts[..n], force, cache, codec);
    }
  }

  /** One turn that does not stop adds the candidate's id to what was cached. */
  lemma AdvanceCache(cands: seq<Paper>, prev: Phase, next: Phase, verdict: Result<Json>, force: bool, codec: Codec)
    requires |cands| > 0 && (prev.stopped.None? ==> AllCached(cands[..|cands| - 1], prev.cache))
    requires next == Advance(prev, cands[|cands| - 1], verdict, force, codec)
    ensures next.stopped.None? ==> AllCached(cands, next.cache)
  {
    if next.stopped.None? {
      AllCachedSnoc(cands, prev.cache, next.cache);
    }
  }

  /** A phase that did not stop leaves every candidate's id in the cache. */
  lemma {:induction false} TriageRunCache(cands: seq<Paper>, verdicts: seq<Result<Json>>, force: bool,
                                          cache: map<string, Json>, codec: Codec)
    requires |verdicts| == |cands|
    ensures var ph := TriageRun(cands, verdicts, force, cache, codec);
      ph.stopped.None? ==> AllCached(cands, ph.cache)
    decreases |cands|
  {
    if |cands| > 0 {
      var n := |cands| - 1;
      var prev := TriageRun(cands[..n], verdicts[..n], force, cache, codec);
      TriageRunCache(cands[..n], verdicts[..n], force, cache, codec);
      AdvanceCache(cands, prev, TriageRun(cands, verdicts, force, cache, codec), verdicts[n], force, codec);
    }
  }

  /** A phase that stopped stays stopped: the rest of the candidates change nothing. */
  lemma {:induction false} TriageRunStopped(cands: seq<Paper>, verdicts: seq<Result<Json>>, force: bool,
                                            cache: map<string, Json>, codec: Codec, k: int)
    requires |verdicts| == |cands| && 0 <= k <= |cands|
    requires TriageRun(cands[..k], verdicts[..k], force, cache, codec).stopped.Some?
    ensures TriageRun(cands, verdicts, force, cache, codec) == TriageRun(cands[..k], verdicts[..k], force, cache, codec)
    decreases |cands|
  {
    if k == |cands| {
      assert cands[..k] == cands && verdicts[..k] == verdicts;
    } else {
      var n := |cands| - 1;
      assert cands[..n][..k] == cands[..k] && verdicts[..n][..k] == verdicts[..k];
      TriageRunStopped(cands[..n], verdicts[..n], force, cache, codec, k);
      TriageRunLast(cands, verdicts, force, cache, codec);
    }
  }

  /** Under `force` the cache decides nothing: every candidate is triaged afresh. */
  lemma {:induction false} ForceIgnoresCache(cands: seq<Paper>, verdicts: seq<Result<Json>>,
                                             a: map<string, Json>, b: map<string, Json>, codec: Codec)
    requires |verdicts| == |cands|
    ensures TriageRun(cands, verdicts, true, a, codec).rows == TriageRun(cands, verdicts, true, b, codec).rows
    ensures TriageRun(cands, verdicts, true, a, codec).stopped == TriageRun(cands, verdicts, true, b, codec).stopped
    decreases |cands|
  {
    if |cands| > 0 {
      var n := |cands| - 1;
      ForceIgnoresCache(cands[..n], verdicts[..n], a, b, codec);
      TriageRunLast(cands, verdicts, true, a, codec);
      TriageRunLast(cands, verdicts, true, b, codec);
    }
  }

  /** Candidate `i` can stop the phase with `e`: triage raised the fatal `e` for it, or, unless
      under `force`, its id was cached before the run or met earlier in the run. */
  predicate StopsAt(cands: seq<Paper>, verdicts: seq<Result<Json>>, force: bool,
                    cache: map<string, Json>, e: Exc, i: int) {
    0 <= i < |cands| && i < |verdicts| &&
    ((verdicts[i] == Err(e) && e.fatal) ||
     (!force && (cands[i].idBase in cache || exists j :: 0 <= j < i && cands[j].idBase == cands[i].idBase)))
  }

  lemma StopsAtPrefix(cands: seq<Paper>, verdicts: seq<Result<Json>>, force: bool,
                      cache: map<string, Json>, e: Exc, n: int, i: int)
    requires 0 <= n <= |cands| && n <= |verdicts|
    requires StopsAt(cands[..n], verdicts[..n], force, cache, e, i)
    ensures StopsAt(cands, verdicts, force, cache, e, i)
  {
    assert cands[..n][i] == cands[i] && verdicts[..n][i] == verdicts[i];
    if exists j :: 0 <= j < i && cands[..n][j].idBase == cands[..n][i].idBase {
      var j :| 0 <= j < i && cands[..n][j].idBase == cands[..n][i].idBase;
      assert cands[..n][j] == cands[j];
    }
  }

  /** The phase stops only on a fatal exception from triage or on a cached record, one cached
      before the run or upserted by it, that does not normalise. */
  lemma {:induction false} TriageRunStopsOn(cands: seq<Paper>, verdicts: seq<Result<Json>>, force: bool,
                                            cache: map<string, Json>, codec: Codec)
    requires |verdicts| == |cands|
    ensures var ph := TriageRun(cands, verdicts, force, cache, codec);
      ph.stopped.Some? ==> exists i :: StopsAt(cands, verdicts, force, cache, ph.stopped.value, i)
    decreases |cands|
  {
    if |cands| > 0 {
      var n := |cands| - 1;
      var prev := TriageRun(cands[..n], verdicts[..n], force, cache, codec);
      var ph := Advance(prev, cands[n], verdicts[n], force, codec);
      TriageRunLast(cands, verdicts, force, cache, codec);
      if prev.stopped.Some? {
        TriageRunStopsOn(cands[..n], verdicts[..n], force, cache, codec);
        var i :| StopsAt(cands[..n], verdicts[..n], force, cache, prev.stopped.value, i);
        StopsAtPrefix(cands, verdicts, force, cache, prev.stopped.value, n, i);
      } else if ph.stopped.Some? {
        var aid := cands[n].idBase;
        if !force && aid in prev.cache && aid !in cache {
          CacheGrowsFrom(cands[..n], verdicts[..n], force, cache, codec, aid);
          var j :| 0 <= j < n && cands[..n][j].idBase == aid;
          assert cands[j].idBase == aid;
        }
        assert StopsAt(cands, verdicts, force, cache, ph.stopped.value, n);
      }
    }
  }

  /** An id the loop added to the cache is the id of a candidate it went through. */
  lemma {:induction false} CacheGrowsFrom(cands: seq<Paper>, verdicts: seq<Result<Json>>, force: bool,
                                          cache: map<string, Json>, codec: Codec, aid: string)
    requires |verdicts| == |cands|
    requires aid in TriageRun(cands, verdicts, force, cache, codec).cache && aid !in cache
    ensures exists j :: 0 <= j < |cands| && cands[j].idBase == aid
    decreases |cands|
  {
    var n := |cands| - 1;
    var ph := TriageRun(cands[..n], verdicts[..n], force, cache, codec);
    if aid in ph.cache {
      CacheGrowsFrom(cands[..n], verdicts[..n], force, cache, codec, aid);
      var j :| 0 <= j < n && cands[..n][j].idBase == aid;
      assert cands[j].idBase == aid;
    } else {
      assert cands[n].idBase == aid;
    }
  }

  lemma TriageRunSnoc(cands: seq<Paper>, verdicts: seq<Result<Json>>, force: bool, cache: map<string, Json>,
                      codec: Codec, i: int)
    requires |verdicts| == |cands| && 0 <= i < |cands|
    ensures TriageRun(cands[..i + 1], verdicts[..i + 1], force, cache, codec) ==
            Advance(TriageRun(cands[..i], verdicts[..i], force, cache, codec), cands[i], verdicts[i], force, codec)
  {
    assert cands[..i + 1][..i] == cands[..i] && verdicts[..i + 1][..i] == verdicts[..i];
  }

  /** The turn of candidate `i` on a phase that has not stopped, spelled out. */
  lemma TriageRunNext(cands: seq<Paper>, verdicts: seq<Result<Json>>, force: bool, cache: map<string, Json>,
                      codec: Codec, i: int, rows: seq<Json>, c: map<string, Json>)
    requires |verdicts| == |cands| && 0 <= i < |cands|
    requires TriageRun(cands[..i], verdicts[..i], force, cache, codec) == Phase(rows, c, None)
    ensures var aid := cands[i].idBase;
      var cached := Cached(c, aid, force);
      var row := TriageStep(aid, cached, verdicts[i], codec);
      TriageRun(cands[..i + 1], verdicts[..i + 1], force, cache, codec) ==
        if row.Err? then Phase(rows, c, Some(row.exc))
        else Phase(rows + [row.value], if Truthy(cached) then c else c[aid := row.value], None)
  {
    TriageRunSnoc(cands, verdicts, force, cache, codec, i);
  }

  /** The sort key of a triage row, `x["arxiv_id_base"]`. */
  function RowIdKey(row: Json): Key {
    match Get(row, "arxiv_id_base")
    case Some(Str(aid)) => [AStr(aid)]
    case _ => []
  }

  /** The triage phase of one month after the candidates are loaded: each candidate in turn
      gets its cached row or a fresh verdict, fresh rows are upserted to the cache, and the
      rows come out sorted by id. The triage call for each candidate is given as its outcome;
      the cache is the triage table, keyed by id. A stopped phase keeps the upserts made
      before it stopped. */
  method TriagePhase(cands: seq<Paper>, verdicts: seq<Result<Json>>, force: bool,
                     cache: map<string, Json>, codec: Codec)
    returns (r: Result<seq<Json>>, cacheOut: map<string, Json>)
    requires |verdicts| == |cands|
    ensures var ph := TriageRun(cands, verdicts, force, cache, codec);
      cacheOut == ph.cache &&
      (ph.stopped.Some? ==> r == Err(ph.stopped.value)) &&
      (ph.stopped.None? ==> r == Ok(SortBy(ph.rows, RowIdKey, false)))
  {
    var rows: seq<Json> := [];
    cacheOut := cache;
    var i := 0;
    while i < |cands|
      invariant 0 <= i <= |cands|
      invariant TriageRun(cands[..i], verdicts[..i], force, cache, codec) == Phase(rows, cacheOut, None)
    {
      TriageRunNext(cands, verdicts, force, cache, codec, i, rows, cacheOut);
      var aid := cands[i].idBase;
      var cached := if force || aid !in cacheOut then Null else cacheOut[aid];
      var row := TriageStep(aid, cached, verdicts[i], codec);
      if row.Err? {
        TriageRunStopped(cands, verdicts, force, cache, codec, i + 1);
        return Err(row.exc), cacheOut;
      }
      rows := rows + [row.value];
      if !Truthy(cached) {
        cacheOut := cacheOut[aid := row.value];
      }
      i := i + 1;
    }
    assert cands[..i] == cands && verdicts[..i] == verdicts;
    r := Ok(SortBy(rows, RowIdKey, false));
  }
}
