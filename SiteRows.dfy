/** The paper rows of a month page (`_paper_rows_from_backend`, `_paper_rows_from_summaries`)
    and the month payload written next to it (`_month_payload`). */
module SiteRows {
  import opened Base
  import opened Strings
  import opened JsonValue
  import opened Ordering
  import opened SiteFields

  /** One paper as the month page shows it. `summary` and `failedReason` are the row's
      `summary` and `summary_failed_reason`, with None for JSON null. */
  datatype PaperRow = PaperRow(
    idBase: string,
    arxivId: string,
    title: string,
    publishedDate: string,
    authors: seq<string>,
    categories: seq<string>,
    links: SiteLinks,
    triage: TriageView,
    summary: Option<Json>,
    failedReason: Option<string>)

  /** The sort key of a backend row: `(str(published), str(arxiv_id_base))`, unstripped. */
  function BackendKey(row: Json): Key {
    [AStr(Display(GetOr(row, "published", Str("")))), AStr(Display(GetOr(row, "arxiv_id_base", Str(""))))]
  }

  /** A backend row is shown when its id is not blank and its triage decision is "accept". */
  predicate Shown(row: Json, codec: Codec) {
    Text(row, "arxiv_id_base") != [] && SafeTriage(GetOr(row, "triage", Null), codec).decision == "accept"
  }

  function ShownBy(codec: Codec): Json -> bool {
    (row: Json) => Shown(row, codec)
  }

  /** The page row built from a shown backend row: a dict summary that is not a placeholder
      is kept; otherwise the row says why there is no summary. */
  function BackendRow(row: Json, isPlaceholder: Json -> bool, codec: Codec): (r: PaperRow)
    ensures r.idBase == Text(row, "arxiv_id_base")
    ensures r.triage == SafeTriage(GetOr(row, "triage", Null), codec)
    ensures r.publishedDate == PyPrefix(Text(row, "published"), 10)
    ensures r.summary.Some? != r.failedReason.Some?
    ensures r.summary.Some? ==> r.summary.value == GetOr(row, "paper_summary", Null)
    ensures r.summary.Some? ==> r.summary.value.Obj? && !isPlaceholder(r.summary.value)
    ensures !GetOr(row, "paper_summary", Null).Obj? ==> r.failedReason == Some(SummaryFailureReason(row))
    ensures GetOr(row, "paper_summary", Null).Obj? && isPlaceholder(GetOr(row, "paper_summary", Null)) ==>
      r.failedReason == Some(PlaceholderReasonSpec(GetOr(row, "paper_summary", Null), row))
  {
    var id := Text(row, "arxiv_id_base");
    var summary := GetOr(row, "paper_summary", Null);
    var kept := summary.Obj? && !isPlaceholder(summary);
    PaperRow(
      id,
      Text(row, "arxiv_id"),
      Text(row, "title"),
      PyPrefix(Text(row, "published"), 10),
      SafeStrList(GetOr(row, "authors", Null)),
      SafeStrList(GetOr(row, "categories", Null)),
      SafeLinks(GetOr(row, "links", Null), id),
      SafeTriage(GetOr(row, "triage", Null), codec),
      if kept then Some(summary) else None,
      if !summary.Obj? then Some(SummaryFailureReason(row))
      else if isPlaceholder(summary) then Some(PlaceholderReasonSpec(summary, row))
      else None)
  }

  /** A backend page row: it has an id, its paper was accepted, and it carries either a
      summary or the reason there is none, never both. */
  predicate GoodBackendRow(r: PaperRow) {
    r.idBase != [] && r.triage.decision == "accept" && r.summary.Some? != r.failedReason.Some?
  }

  predicate AllGood(rs: seq<PaperRow>) {
    forall i :: 0 <= i < |rs| ==> GoodBackendRow(rs[i])
  }

  function RowBy(isPlaceholder: Json -> bool, codec: Codec): Json -> PaperRow {
    (row: Json) => BackendRow(row, isPlaceholder, codec)
  }

  /** Every shown backend row gives a good page row. */
  lemma ShownGood(row: Json, isPlaceholder: Json -> bool, codec: Codec)
    requires Shown(row, codec)
    ensures GoodBackendRow(BackendRow(row, isPlaceholder, codec))
  {
  }

  /** The rows built from `rows`, in their order, skipping those not shown. */
  function BackendRows(rows: seq<Json>, isPlaceholder: Json -> bool, codec: Codec): (r: seq<PaperRow>)
    ensures |r| <= |rows|
  {
    KeepMap(rows, ShownBy(codec), RowBy(isPlaceholder, codec))
  }

  /** Row by row, the page rows are the shown backend rows in their order. */
  lemma BackendRowsShown(rows: seq<Json>, isPlaceholder: Json -> bool, codec: Codec)
    ensures var shown := Filter(rows, ShownBy(codec));
      |BackendRows(rows, isPlaceholder, codec)| == |shown| &&
      forall i :: 0 <= i < |shown| ==>
        BackendRows(rows, isPlaceholder, codec)[i] == BackendRow(shown[i], isPlaceholder, codec)
  {
    KeepMapFilter(rows, ShownBy(codec), RowBy(isPlaceholder, codec));
  }

  /** Every backend page row has an id and an accepted paper, and carries either a summary or
      the reason there is none. */
  lemma BackendRowsGood(rows: seq<Json>, isPlaceholder: Json -> bool, codec: Codec)
    ensures AllGood(BackendRows(rows, isPlaceholder, codec))
  {
    var shown := Filter(rows, ShownBy(codec));
    BackendRowsShown(rows, isPlaceholder, codec);
    forall i | 0 <= i < |shown|
      ensures GoodBackendRow(BackendRows(rows, isPlaceholder, codec)[i])
    {
      assert ShownBy(codec)(shown[i]);
      ShownGood(shown[i], isPlaceholder, codec);
    }
  }

  /** The shown rows come out in (published, id) order. */
  lemma BackendRowsOrdered(backendRows: seq<Json>, codec: Codec)
    ensures SortedBy(Filter(SortBy(backendRows, BackendKey, false), ShownBy(codec)), BackendKey, false)
  {
    FilterSorted(SortBy(backendRows, BackendKey, false), ShownBy(codec), BackendKey, false);
  }

  /** The page row of one backend row, when it is shown. */
  method BackendRowOf(row: Json, isPlaceholder: Json -> bool, codec: Codec) returns (r: Option<PaperRow>)
    ensures Shown(row, codec) ==> r == Some(BackendRow(row, isPlaceholder, codec))
    ensures !Shown(row, codec) ==> r == None
  {
    var id := Text(row, "arxiv_id_base");
    if id == [] {
      return None;
    }
    var triage := SafeTriage(GetOr(row, "triage", Null), codec);
    if triage.decision != "accept" {
      return None;
    }
    var summary := GetOr(row, "paper_summary", Null);
    var summaryOut := if summary.Obj? then Some(summary) else None;
    var failedReason: Option<string> := None;
    if summaryOut.None? {
      failedReason := Some(SummaryFailureReason(row));
    } else if isPlaceholder(summary) {
      var reason := PlaceholderFailureReason(summary, row);
      failedReason := Some(reason);
      summaryOut := None;
    }
    r := Some(PaperRow(
      id,
      Text(row, "arxiv_id"),
      Text(row, "title"),
      PyPrefix(Text(row, "published"), 10),
      SafeStrList(GetOr(row, "authors", Null)),
      SafeStrList(GetOr(row, "categories", Null)),
      SafeLinks(GetOr(row, "links", Null), id),
      triage,
      summaryOut,
      failedReason));
  }

  lemma BackendRowsSnoc(rows: seq<Json>, isPlaceholder: Json -> bool, codec: Codec)
    requires |rows| > 0
    ensures var last := rows[|rows| - 1];
      BackendRows(rows, isPlaceholder, codec) == BackendRows(rows[..|rows| - 1], isPlaceholder, codec)
        + (if Shown(last, codec) then [BackendRow(last, isPlaceholder, codec)] else [])
  {
  }

  /** The loop of `_paper_rows_from_backend` over the sorted rows. */
  method CollectBackendRows(sorted: seq<Json>, isPlaceholder: Json -> bool, codec: Codec)
    returns (rows: seq<PaperRow>)
    ensures rows == BackendRows(sorted, isPlaceholder, codec)
  {
    rows := [];
    var i := 0;
    while i < |sorted|
      invariant 0 <= i <= |sorted|
      invariant rows == BackendRows(sorted[..i], isPlaceholder, codec)
    {
      BackendRowsSnoc(sorted[..i + 1], isPlaceholder, codec);
      assert sorted[..i + 1][..i] == sorted[..i];
      var row := BackendRowOf(sorted[i], isPlaceholder, codec);
      if row.Some? {
        rows := rows + [row.value];
      }
      i := i + 1;
    }
    assert i == |sorted|;
    assert sorted[..i] == sorted;
  }

  /** `_paper_rows_from_backend`: the backend rows in (published, id) order. */
  method PaperRowsFromBackend(backendRows: seq<Json>, isPlaceholder: Json -> bool, codec: Codec)
    returns (rows: seq<PaperRow>)
    ensures rows == BackendRows(SortBy(backendRows, BackendKey, false), isPlaceholder, codec)
  {
    rows := CollectBackendRows(SortBy(backendRows, BackendKey, false), isPlaceholder, codec);
  }

  /** The sort key of a summary: `(str(published_date), str(arxiv_id_base))`. */
  function SummaryKey(summary: Json): Key {
    [AStr(Display(GetOr(summary, "published_date", Str("")))), AStr(Display(GetOr(summary, "arxiv_id_base", Str(""))))]
  }

  /** The metadata of a paper, or an empty dict when there is none or it is not a dict. */
  function MetaOf(metadata: map<string, Json>, id: string): (r: Json)
    ensures r.Obj?
    ensures id in metadata && metadata[id].Obj? ==> r == metadata[id]
  {
    if id in metadata && metadata[id].Obj? then metadata[id] else Obj([])
  }

  /** The triage every summarized paper shows. */
  const AcceptView: TriageView := TriageView("accept", 0.0, [])

  /** The page row of a summary with a non-blank id. */
  function SummaryRow(summary: Json, metadata: map<string, Json>): (r: PaperRow)
    ensures r.idBase == Text(summary, "arxiv_id_base")
    ensures r.summary == Some(summary) && r.failedReason == None
    ensures r.triage == AcceptView
  {
    var id := Text(summary, "arxiv_id_base");
    var meta := MetaOf(metadata, id);
    PaperRow(
      id,
      Text(meta, "arxiv_id"),
      Text(summary, "title"),
      Text(summary, "published_date"),
      SafeStrList(GetOr(meta, "authors", Null)),
      SafeStrList(GetOr(summary, "categories", Null)),
      SafeLinks(GetOr(meta, "links", Null), id),
      AcceptView,
      Some(summary),
      None)
  }

  predicate HasId(summary: Json) {
    Text(summary, "arxiv_id_base") != []
  }

  function WithId(): Json -> bool {
    (summary: Json) => HasId(summary)
  }

  function SummaryRowBy(metadata: map<string, Json>): Json -> PaperRow {
    (summary: Json) => SummaryRow(summary, metadata)
  }

  /** The rows built from the summaries with an id, in their order. */
  function SummaryRows(summaries: seq<Json>, metadata: map<string, Json>): (r: seq<PaperRow>)
    ensures |r| <= |summaries|
  {
    KeepMap(summaries, WithId(), SummaryRowBy(metadata))
  }

  /** Row by row, the page rows are the summaries with an id in their order, each with its
      summary, no failure reason and an accept triage. */
  lemma SummaryRowsKept(summaries: seq<Json>, metadata: map<string, Json>)
    ensures var kept := Filter(summaries, WithId());
      |SummaryRows(summaries, metadata)| == |kept| &&
      forall i :: 0 <= i < |kept| ==> SummaryRows(summaries, metadata)[i] == SummaryRow(kept[i], metadata)
  {
    KeepMapFilter(summaries, WithId(), SummaryRowBy(metadata));
  }

  lemma SummaryRowsSnoc(summaries: seq<Json>, metadata: map<string, Json>)
    requires |summaries| > 0
    ensures var last := summaries[|summaries| - 1];
      SummaryRows(summaries, metadata) == SummaryRows(summaries[..|summaries| - 1], metadata)
        + (if HasId(last) then [SummaryRow(last, metadata)] else [])
  {
  }

  /** The page row of one summary, when it has an id. */
  method SummaryRowOf(summary: Json, metadata: map<string, Json>) returns (r: Option<PaperRow>)
    ensures HasId(summary) ==> r == Some(SummaryRow(summary, metadata))
    ensures !HasId(summary) ==> r == None
  {
    var id := Text(summary, "arxiv_id_base");
    if id == [] {
      return None;
    }
    var meta := MetaOf(metadata, id);
    r := Some(PaperRow(
      id,
      Text(meta, "arxiv_id"),
      Text(summary, "title"),
      Text(summary, "published_date"),
      SafeStrList(GetOr(meta, "authors", Null)),
      SafeStrList(GetOr(summary, "categories", Null)),
      SafeLinks(GetOr(meta, "links", Null), id),
      AcceptView,
      Some(summary),
      None));
  }

  /** The loop of `_paper_rows_from_summaries` over the sorted summaries. */
  method CollectSummaryRows(sorted: seq<Json>, metadata: map<string, Json>) returns (rows: seq<PaperRow>)
    ensures rows == SummaryRows(sorted, metadata)
  {
    rows := [];
    var i := 0;
    while i < |sorted|
      invariant 0 <= i <= |sorted|
      invariant rows == SummaryRows(sorted[..i], metadata)
    {
      SummaryRowsSnoc(sorted[..i + 1], metadata);
      assert sorted[..i + 1][..i] == sorted[..i];
      var row := SummaryRowOf(sorted[i], metadata);
      if row.Some? {
        rows := rows + [row.value];
      }
      i := i + 1;
    }
    assert i == |sorted|;
    assert sorted[..i] == sorted;
  }

  /** `_paper_rows_from_summaries`: the summaries in (published_date, id) order. */
  method PaperRowsFromSummaries(summaries: seq<Json>, metadata: map<string, Json>) returns (rows: seq<PaperRow>)
    ensures rows == SummaryRows(SortBy(summaries, SummaryKey, false), metadata)
  {
    rows := CollectSummaryRows(SortBy(summaries, SummaryKey, false), metadata);
  }

  /** The counts the month page shows. */
  datatype Stats = Stats(candidates: int, accepted: int, summarized: int)

  /** The month page's data: `{"month", "stats", "top_picks", "papers"}`. */
  datatype MonthPayload = MonthPayload(month: string, stats: Stats, topPicks: seq<string>, papers: seq<PaperRow>)

  /** A row whose summary is truthy (`p.get("summary")`). */
  predicate HasSummary(row: PaperRow) {
    row.summary.Some? && Truthy(row.summary.value)
  }

  /** The digest's stats, or an empty dict when they are missing or not a dict. */
  function DigestStats(digest: Json): (r: Json)
    ensures r.Obj?
  {
    var stats := GetOr(digest, "stats", Null);
    if stats.Obj? then stats else Obj([])
  }

  /** The stats of the month payload: recorded values where they convert to integers, and
      otherwise 0 candidates, every row accepted and the rows with a summary summarized. */
  function PayloadStats(digest: Json, papers: seq<PaperRow>, codec: Codec): (r: Stats)
    ensures Get(DigestStats(digest), "candidates") == None ==> r.candidates == 0
    ensures Get(DigestStats(digest), "accepted") == None ==> r.accepted == |papers|
    ensures Get(DigestStats(digest), "summarized") == None ==> r.summarized == |Filter(papers, HasSummary)|
    ensures GetOr(DigestStats(digest), "candidates", Null).Int? ==>
      r.candidates == GetOr(DigestStats(digest), "candidates", Null).i
    ensures GetOr(DigestStats(digest), "accepted", Null).Int? ==>
      r.accepted == GetOr(DigestStats(digest), "accepted", Null).i
    ensures GetOr(DigestStats(digest), "summarized", Null).Int? ==>
      r.summarized == GetOr(DigestStats(digest), "summarized", Null).i
  {
    var stats := DigestStats(digest);
    var summarized := |Filter(papers, HasSummary)|;
    Stats(
      SafeInt(GetOr(stats, "candidates", Int(0)), 0, codec),
      SafeInt(GetOr(stats, "accepted", Int(|papers|)), |papers|, codec),
      SafeInt(GetOr(stats, "summarized", Int(summarized)), summarized, codec))
  }

  /** `[str(item) for item in top_picks]`, with no picks when they are not a list. */
  function TopPickTexts(digest: Json): (r: seq<string>)
    ensures !GetOr(digest, "top_picks", Null).Arr? ==> r == []
    ensures GetOr(digest, "top_picks", Null).Arr? ==> |r| == |GetOr(digest, "top_picks", Null).items|
    ensures GetOr(digest, "top_picks", Null).Arr? ==>
      forall i :: 0 <= i < |r| ==> r[i] == Display(GetOr(digest, "top_picks", Null).items[i])
  {
    var picks := GetOr(digest, "top_picks", Null);
    if picks.Arr? then seq(|picks.items|, i requires 0 <= i < |picks.items| => Display(picks.items[i])) else []
  }

  /** Picks rendered by the digest survive into the payload. */
  lemma TopPickTextsKeep(digest: Json, ids: seq<string>)
    requires Get(digest, "top_picks") == Some(StrList(ids))
    ensures TopPickTexts(digest) == ids
  {
  }

  /** Every row built from the summaries has an id, its summary, no failure reason and an
      accept triage. */
  lemma SummaryRowsGood(summaries: seq<Json>, metadata: map<string, Json>)
    ensures forall i :: 0 <= i < |SummaryRows(summaries, metadata)| ==>
      var r := SummaryRows(summaries, metadata)[i];
      r.idBase != [] && r.summary.Some? && r.failedReason.None? && r.triage == AcceptView
  {
    var kept := Filter(summaries, WithId());
    SummaryRowsKept(summaries, metadata);
    forall i | 0 <= i < |kept|
      ensures SummaryRows(summaries, metadata)[i].idBase != []
    {
      assert WithId()(kept[i]);
    }
  }

  /** `_month_payload`: backend rows when the backend export exists, else rows from the
      summaries. */
  method BuildMonthPayload(month: string, summaries: seq<Json>, metadata: map<string, Json>, digest: Json,
                           backendRows: Option<seq<Json>>, isPlaceholder: Json -> bool, codec: Codec)
    returns (p: MonthPayload)
    ensures p.month == month
    ensures backendRows.Some? ==>
      p.papers == BackendRows(SortBy(backendRows.value, BackendKey, false), isPlaceholder, codec)
    ensures backendRows.None? ==> p.papers == SummaryRows(SortBy(summaries, SummaryKey, false), metadata)
    ensures p.stats == PayloadStats(digest, p.papers, codec)
    ensures p.topPicks == TopPickTexts(digest)
  {
    var papers;
    if backendRows.Some? {
      papers := PaperRowsFromBackend(backendRows.value, isPlaceholder, codec);
    } else {
      papers := PaperRowsFromSummaries(summaries, metadata);
    }
    p := MonthPayload(month, PayloadStats(digest, papers, codec), TopPickTexts(digest), papers);
  }
}
