/** The summary set of a month: the candidates triage accepted, with those it left borderline
    when enabled, earliest published first and cut to a cap. The batch runner and the
    one-month pipeline build it the same way except for how many borderline papers they add. */
module Selection {
  import opened Base
  import opened Strings
  import opened JsonValue
  import opened Ordering
  import opened Records

  /** A row `row["arxiv_id_base"]` can be read from and used as a dict key: a dict holding the
      key, whose value is hashable (not a list or a dict). */
  predicate Indexable(row: Json) {
    row.Obj? && Get(row, "arxiv_id_base").Some? &&
    !Get(row, "arxiv_id_base").value.Arr? && !Get(row, "arxiv_id_base").value.Obj?
  }

  /** One row entered into the index: raising when the row cannot be indexed, kept under a
      string id, passed over under another id. */
  function IndexRow(before: map<string, Json>, row: Json): (r: Result<map<string, Json>>)
    ensures r.Ok? <==> Indexable(row)
    ensures r.Ok? && Get(row, "arxiv_id_base").value.Str? ==>
      r.value == before[Get(row, "arxiv_id_base").value.s := row]
    ensures r.Ok? && !Get(row, "arxiv_id_base").value.Str? ==> r.value == before
  {
    if !row.Obj? then Err(Raise("TypeError"))
    else match Get(row, "arxiv_id_base")
      case None => Err(Raise("KeyError"))
      case Some(id) =>
        if id.Arr? || id.Obj? then Err(Raise("TypeError"))
        else if id.Str? then Ok(before[id.s := row])
        else Ok(before)
  }

  /** `{row["arxiv_id_base"]: row for row in rows}`, raising on the first row it cannot index.
      Only string ids can equal a candidate's id, so the index keeps those; a row with another
      hashable id is passed over. */
  function TriageIndex(rows: seq<Json>): (r: Result<map<string, Json>>)
    ensures r.Ok? <==> forall i :: 0 <= i < |rows| ==> Indexable(rows[i])
    decreases |rows|
  {
    if |rows| == 0 then Ok(map[])
    else
      var n := |rows| - 1;
      assert forall i :: 0 <= i < n ==> rows[..n][i] == rows[i];
      var before :- TriageIndex(rows[..n]);
      IndexRow(before, rows[n])
  }

  /** The index holds exactly the string ids of the rows. */
  lemma {:induction false} TriageIndexKeys(rows: seq<Json>, aid: string)
    requires TriageIndex(rows).Ok?
    ensures aid in TriageIndex(rows).value <==>
      exists i :: 0 <= i < |rows| && Get(rows[i], "arxiv_id_base") == Some(Str(aid))
    decreases |rows|
  {
    if |rows| > 0 {
      var n := |rows| - 1;
      var init := rows[..n];
      assert forall k :: 0 <= k < n ==> init[k] == rows[k];
      TriageIndexKeys(init, aid);
      if exists i :: 0 <= i < |rows| && Get(rows[i], "arxiv_id_base") == Some(Str(aid)) {
        var i :| 0 <= i < |rows| && Get(rows[i], "arxiv_id_base") == Some(Str(aid));
        if i < n {
          assert Get(init[i], "arxiv_id_base") == Some(Str(aid));
        }
      }
    }
  }

  /** For an id several rows share, the last of them wins. */
  lemma {:induction false} TriageIndexLastWins(rows: seq<Json>, i: int, aid: string)
    requires 0 <= i < |rows| && TriageIndex(rows).Ok?
    requires Get(rows[i], "arxiv_id_base") == Some(Str(aid))
    requires forall j :: i < j < |rows| ==> Get(rows[j], "arxiv_id_base") != Some(Str(aid))
    ensures aid in TriageIndex(rows).value && TriageIndex(rows).value[aid] == rows[i]
    decreases |rows|
  {
    var n := |rows| - 1;
    var init := rows[..n];
    assert forall k :: 0 <= k < n ==> init[k] == rows[k];
    var m := TriageIndex(init).value;
    var id := Get(rows[n], "arxiv_id_base").value;
    if i < n {
      TriageIndexLastWins(init, i, aid);
      if id.Str? {
        assert id.s != aid;
        assert TriageIndex(rows).value == m[id.s := rows[n]];
      } else {
        assert TriageIndex(rows).value == m;
      }
    } else {
      assert TriageIndex(rows).value == m[aid := rows[n]];
    }
  }

  /** `triage_map.get(aid, {}).get("decision")` */
  function DecisionOf(tm: map<string, Json>, aid: string): Option<Json> {
    if aid in tm then Get(tm[aid], "decision") else None
  }

  /** The paper's row in the index has the decision `d`. */
  function DecidedAs(tm: map<string, Json>, d: string): Paper -> bool {
    (p: Paper) => DecisionOf(tm, p.idBase) == Some(Str(d))
  }

  /** The paper may be summarised: accepted, or borderline when borderline papers are included. */
  predicate Eligible(tm: map<string, Json>, includeBorderline: bool, p: Paper) {
    DecidedAs(tm, "accept")(p) || (includeBorderline && DecidedAs(tm, "borderline")(p))
  }

  /** `s[:cap]`, where a cap of None keeps everything. */
  function Capped<T>(s: seq<T>, cap: Option<int>): (r: seq<T>)
    ensures |r| <= |s| && r == s[..|r|]
    ensures cap.None? || cap.value >= |s| ==> r == s
    ensures cap.Some? && 0 <= cap.value <= |s| ==> |r| == cap.value
  {
    if cap.None? then s else PyPrefix(s, cap.value)
  }

  function SummaryOrder(pool: seq<Paper>, maxAccepted: Option<int>): seq<Paper> {
    Capped(SortBy(pool, PublishedKey, false), maxAccepted)
  }

  /** The chosen papers are sorted by (published, id) and drawn from the pool; without a cap,
      or with one the pool does not reach, they are the whole pool. */
  lemma SummaryOrderSorted(pool: seq<Paper>, maxAccepted: Option<int>)
    ensures var r := SummaryOrder(pool, maxAccepted);
      SortedBy(r, PublishedKey, false) && multiset(r) <= multiset(pool) &&
      (maxAccepted.None? || maxAccepted.value >= |pool| ==> multiset(r) == multiset(pool))
  {
    var s := SortBy(pool, PublishedKey, false);
    var r := SummaryOrder(pool, maxAccepted);
    assert s == r + s[|r|..];
    assert multiset(s) == multiset(r) + multiset(s[|r|..]);
  }

  function EligibleCandidate(cands: seq<Paper>, tm: map<string, Json>, includeBorderline: bool): Paper -> bool {
    (x: Paper) => x in cands && Eligible(tm, includeBorderline, x)
  }

  lemma FilterMember<T>(s: seq<T>, p: T -> bool, x: T)
    requires x in Filter(s, p)
    ensures x in s && p(x)
  {
    var i :| 0 <= i < |Filter(s, p)| && Filter(s, p)[i] == x;
  }

  /** The pool, the accepted candidates followed by some prefix of the borderline ones, holds
      eligible candidates only. */
  lemma PoolEligible(cands: seq<Paper>, tm: map<string, Json>, includeBorderline: bool,
                     maxBorderline: Option<int>, pool: seq<Paper>)
    requires pool == Filter(cands, DecidedAs(tm, "accept")) +
      (if includeBorderline then Capped(Filter(cands, DecidedAs(tm, "borderline")), maxBorderline) else [])
    ensures forall x :: x in pool ==> EligibleCandidate(cands, tm, includeBorderline)(x)
  {
    var accepted := Filter(cands, DecidedAs(tm, "accept"));
    var all := Filter(cands, DecidedAs(tm, "borderline"));
    forall x | x in pool
      ensures x in cands && Eligible(tm, includeBorderline, x)
    {
      if x in accepted {
        FilterMember(cands, DecidedAs(tm, "accept"), x);
      } else {
        assert includeBorderline && x in Capped(all, maxBorderline);
        assert x in all;
        FilterMember(cands, DecidedAs(tm, "borderline"), x);
      }
    }
  }

  /** Whatever all papers of the pool satisfy, the chosen ones satisfy. */
  lemma SummaryOrderFromPool(pool: seq<Paper>, maxAccepted: Option<int>, ok: Paper -> bool)
    requires forall x :: x in pool ==> ok(x)
    ensures forall i :: 0 <= i < |SummaryOrder(pool, maxAccepted)| ==> ok(SummaryOrder(pool, maxAccepted)[i])
  {
    SummaryOrderSorted(pool, maxAccepted);
    var r := SummaryOrder(pool, maxAccepted);
    forall i | 0 <= i < |r|
      ensures ok(r[i])
    {
      assert r[i] in multiset(pool);
    }
  }

  /** The cap keeps the earliest: a paper of the pool left out, or left out once more than it
      was kept, comes no earlier than any paper kept. */
  lemma SummaryOrderKeepsEarliest(pool: seq<Paper>, maxAccepted: Option<int>, x: Paper, y: Paper)
    requires x in SummaryOrder(pool, maxAccepted)
    requires multiset(SummaryOrder(pool, maxAccepted))[y] < multiset(pool)[y]
    ensures KeyLe(PublishedKey(x), PublishedKey(y))
  {
    var s := SortBy(pool, PublishedKey, false);
    var k := |SummaryOrder(pool, maxAccepted)|;
    assert s == s[..k] + s[k..];
    assert multiset(s[k..])[y] > 0 by {
      assert multiset(s) == multiset(s[..k]) + multiset(s[k..]);
    }
    SortedSplit(s, PublishedKey, k, x, y);
  }

  /** In a sorted list, whatever comes before a cut sorts no later than whatever comes after. */
  lemma SortedSplit<T>(s: seq<T>, key: T -> Key, k: int, x: T, y: T)
    requires SortedBy(s, key, false) && 0 <= k <= |s|
    requires x in s[..k] && y in multiset(s[k..])
    ensures KeyLe(key(x), key(y))
  {
    var i :| 0 <= i < k && s[..k][i] == x;
    var j :| 0 <= j < |s| - k && s[k..][j] == y;
    assert InOrder(key(s[i]), key(s[k + j]), false);
  }

  /** batch.py's summary set: the accepted candidates, then, when enabled, the borderline
      ones, sorted by (published, id) and cut to `max_accepted`. */
  function BatchSelection(cands: seq<Paper>, tm: map<string, Json>, includeBorderline: bool,
                          maxAccepted: Option<int>): (r: seq<Paper>)
    ensures forall i :: 0 <= i < |r| ==> (r[i] in cands && Eligible(tm, includeBorderline, r[i]))
  {
    var pool := Filter(cands, DecidedAs(tm, "accept")) +
                (if includeBorderline then Filter(cands, DecidedAs(tm, "borderline")) else []);
    PoolEligible(cands, tm, includeBorderline, None, pool);
    SummaryOrderFromPool(pool, maxAccepted, EligibleCandidate(cands, tm, includeBorderline));
    SummaryOrder(pool, maxAccepted)
  }

  /** Without a cap, every accepted candidate is chosen, as often as it is listed. */
  lemma BatchSelectionKeepsAccepted(cands: seq<Paper>, tm: map<string, Json>, includeBorderline: bool, p: Paper)
    requires p in cands && DecidedAs(tm, "accept")(p)
    ensures p in BatchSelection(cands, tm, includeBorderline, None)
  {
    var accepted := Filter(cands, DecidedAs(tm, "accept"));
    var borderline := if includeBorderline then Filter(cands, DecidedAs(tm, "borderline")) else [];
    var pool := accepted + borderline;
    SummaryOrderSorted(pool, None);
    assert p in accepted;
    assert p in multiset(pool);
  }

  /** The one-month pipeline's summary set: the accepted candidates, then, when enabled, the
      first `max_borderline_pdfs` borderline ones, sorted by (published, id) and cut to
      `max_accepted`. */
  function PipelineSelection(cands: seq<Paper>, tm: map<string, Json>, includeBorderline: bool,
                             maxBorderline: Option<int>, maxAccepted: Option<int>): (r: seq<Paper>)
    ensures forall i :: 0 <= i < |r| ==> (r[i] in cands && Eligible(tm, includeBorderline, r[i]))
  {
    var pool := Filter(cands, DecidedAs(tm, "accept")) +
                (if includeBorderline then Capped(Filter(cands, DecidedAs(tm, "borderline")), maxBorderline) else []);
    PoolEligible(cands, tm, includeBorderline, maxBorderline, pool);
    SummaryOrderFromPool(pool, maxAccepted, EligibleCandidate(cands, tm, includeBorderline));
    SummaryOrder(pool, maxAccepted)
  }

  /** Every borderline paper the pipeline chooses is among the first `max_borderline_pdfs`
      borderline candidates. */
  lemma PipelineBorderlineCapped(cands: seq<Paper>, tm: map<string, Json>, maxBorderline: Option<int>,
                                 maxAccepted: Option<int>, x: Paper)
    requires x in PipelineSelection(cands, tm, true, maxBorderline, maxAccepted)
    requires DecidedAs(tm, "borderline")(x)
    ensures x in Capped(Filter(cands, DecidedAs(tm, "borderline")), maxBorderline)
  {
    var accepted := Filter(cands, DecidedAs(tm, "accept"));
    var borderline := Capped(Filter(cands, DecidedAs(tm, "borderline")), maxBorderline);
    var pool := accepted + borderline;
    SummaryOrderSorted(pool, maxAccepted);
    assert x in multiset(pool);
    assert x !in accepted;
  }
}
