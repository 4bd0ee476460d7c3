/** One entry of the site's month manifest (`_month_manifest_item`), read from a month's
    loaded `papers.json`: its counts, its empty-state label and its featured paper. */
module SiteManifest {
  import opened Base
  import opened Strings
  import opened JsonValue
  import opened Ordering
  import opened SiteFields

  function IsDict(): Json -> bool {
    (j: Json) => j.Obj?
  }

  /** The row has a dict summary. */
  predicate HasSummaryDict(row: Json) {
    GetOr(row, "summary", Null).Obj?
  }

  function WithSummary(): Json -> bool {
    (row: Json) => HasSummaryDict(row)
  }

  /** The paper rows of a payload: the dict items of a list payload, or of a dict payload's
      `papers` list. */
  function Papers(payload: Json): (r: seq<Json>)
    ensures forall i :: 0 <= i < |r| ==> r[i].Obj?
  {
    var rows := if payload.Arr? then payload.items
      else if payload.Obj? && GetOr(payload, "papers", Arr([])).Arr? then GetOr(payload, "papers", Arr([])).items
      else [];
    Filter(rows, IsDict())
  }

  datatype ManifestStats = ManifestStats(candidates: int, accepted: int, summarized: int)

  /** The counts of a month: a list payload counts every paper as a candidate, accepted and
      summarized; a dict payload takes its `stats` dict, defaulting to 0 candidates, every
      paper accepted and the papers with a summary dict summarized; otherwise all are 0. */
  function ManifestStatsOf(payload: Json, papers: seq<Json>, codec: Codec): (r: ManifestStats)
    ensures payload.Arr? ==> r == ManifestStats(|papers|, |papers|, |papers|)
    ensures !payload.Arr? && !(payload.Obj? && GetOr(payload, "stats", Obj([])).Obj?) ==> r == ManifestStats(0, 0, 0)
    ensures payload.Obj? && Get(payload, "stats") == None ==>
      r == ManifestStats(0, |papers|, |Filter(papers, WithSummary())|)
  {
    if payload.Arr? then ManifestStats(|papers|, |papers|, |papers|)
    else if payload.Obj? && GetOr(payload, "stats", Obj([])).Obj? then
      var stats := GetOr(payload, "stats", Obj([]));
      var summarized := |Filter(papers, WithSummary())|;
      ManifestStats(
        SafeInt(GetOr(stats, "candidates", Int(0)), 0, codec),
        SafeInt(GetOr(stats, "accepted", Int(|papers|)), |papers|, codec),
        SafeInt(GetOr(stats, "summarized", Int(summarized)), summarized, codec))
    else ManifestStats(0, 0, 0)
  }

  /** The empty-state label: the first count that is zero names what the month lacks. */
  function EmptyState(s: ManifestStats): (r: string)
    ensures r == "has_papers" <==> s.candidates != 0 && s.accepted != 0 && s.summarized != 0
    ensures r == "no_candidates" <==> s.candidates == 0
    ensures r == "no_accepts" <==> s.candidates != 0 && s.accepted == 0
    ensures r == "no_summaries" <==> s.candidates != 0 && s.accepted != 0 && s.summarized == 0
  {
    if s.candidates == 0 then "no_candidates"
    else if s.accepted == 0 then "no_accepts"
    else if s.summarized == 0 then "no_summaries"
    else "has_papers"
  }

  /** A list payload has papers exactly when it has a dict row. */
  lemma ListPayloadState(payload: Json, codec: Codec)
    requires payload.Arr?
    ensures EmptyState(ManifestStatsOf(payload, Papers(payload), codec)) ==
      (if Papers(payload) == [] then "no_candidates" else "has_papers")
  {
  }

  /** A dict payload without stats has no candidates, whatever its papers. */
  lemma NoStatsNoCandidates(payload: Json, codec: Codec)
    requires payload.Obj? && Get(payload, "stats") == None
    ensures EmptyState(ManifestStatsOf(payload, Papers(payload), codec)) == "no_candidates"
  {
  }

  predicate NonBlank(item: Json) {
    !IsBlank(Display(item))
  }

  function NonBlankItem(): Json -> bool {
    (item: Json) => NonBlank(item)
  }

  function DisplayItem(): Json -> string {
    (item: Json) => Display(item)
  }

  /** `[str(item) for item in picks if str(item).strip()]` for a dict payload's `top_picks`
      list, and no picks otherwise. */
  function PickTexts(payload: Json): (r: seq<string>)
    ensures !payload.Obj? || !GetOr(payload, "top_picks", Arr([])).Arr? ==> r == []
    ensures payload.Obj? && GetOr(payload, "top_picks", Arr([])).Arr? ==>
      var kept := Filter(GetOr(payload, "top_picks", Arr([])).items, NonBlankItem());
      |r| == |kept| && forall i :: 0 <= i < |r| ==> r[i] == Display(kept[i])
  {
    var picks := if payload.Obj? then GetOr(payload, "top_picks", Arr([])) else Null;
    if picks.Arr? then
      KeepMapFilter(picks.items, NonBlankItem(), DisplayItem());
      KeepMap(picks.items, NonBlankItem(), DisplayItem())
    else []
  }

  /** Every pick is a non-blank text, as written in the payload. */
  lemma PickTextsNonBlank(payload: Json)
    ensures forall i :: 0 <= i < |PickTexts(payload)| ==> !IsBlank(PickTexts(payload)[i])
  {
    var picks := if payload.Obj? then GetOr(payload, "top_picks", Arr([])) else Null;
    if picks.Arr? {
      var kept := Filter(picks.items, NonBlankItem());
      KeepMapFilter(picks.items, NonBlankItem(), DisplayItem());
      forall i | 0 <= i < |kept|
        ensures !IsBlank(PickTexts(payload)[i])
      {
        assert NonBlankItem()(kept[i]);
      }
    }
  }

  /** The id a row is filed under: `str(row.get("arxiv_id_base", ""))`, unstripped. */
  function RowId(row: Json): string {
    Display(GetOr(row, "arxiv_id_base", Str("")))
  }

  /** `{str(row.get("arxiv_id_base", "")): row for row in papers}`: a later row with the same
      id replaces an earlier one. */
  function PaperMap(papers: seq<Json>): (m: map<string, Json>)
    ensures forall i :: 0 <= i < |papers| ==> RowId(papers[i]) in m
  {
    if |papers| == 0 then map[]
    else
      var init := papers[..|papers| - 1];
      var last := papers[|papers| - 1];
      assert forall i :: 0 <= i < |init| ==> init[i] == papers[i];
      PaperMap(init)[RowId(last) := last]
  }

  /** Each row is filed under its own id. */
  lemma {:induction false} PaperMapOwnId(papers: seq<Json>, k: string)
    requires k in PaperMap(papers)
    ensures RowId(PaperMap(papers)[k]) == k
    decreases |papers|
  {
    var init := papers[..|papers| - 1];
    var last := papers[|papers| - 1];
    if k != RowId(last) {
      PaperMapOwnId(init, k);
    }
  }

  /** The last row with an id is the one filed under it. */
  lemma {:induction false} PaperMapLastWins(papers: seq<Json>, i: int)
    requires 0 <= i < |papers|
    requires forall j :: i < j < |papers| ==> RowId(papers[j]) != RowId(papers[i])
    ensures PaperMap(papers)[RowId(papers[i])] == papers[i]
    decreases |papers|
  {
    if i < |papers| - 1 {
      var init := papers[..|papers| - 1];
      assert init[i] == papers[i];
      PaperMapLastWins(init, i);
    }
  }

  /** The scan over the picks: a found pick becomes the candidate, and a found pick with a
      summary dict ends the scan. */
  function ScanPicks(picks: seq<string>, m: map<string, Json>, found: Option<Json>): Option<Json> {
    if |picks| == 0 then found
    else if picks[0] in m && m[picks[0]].Obj? then
      if HasSummaryDict(m[picks[0]]) then Some(m[picks[0]])
      else ScanPicks(picks[1..], m, Some(m[picks[0]]))
    else ScanPicks(picks[1..], m, found)
  }

  /** The first paper with a summary dict. */
  function FirstSummarized(papers: seq<Json>): (r: Option<Json>)
    ensures r.Some? ==> r.value in papers && HasSummaryDict(r.value)
    ensures r.None? ==> forall i :: 0 <= i < |papers| ==> !HasSummaryDict(papers[i])
  {
    if |papers| == 0 then None
    else if HasSummaryDict(papers[0]) then Some(papers[0])
    else FirstSummarized(papers[1..])
  }

  /** The featured row: from the picks, else the first paper with a summary, else the first
      paper. */
  function FeaturedRow(picks: seq<string>, m: map<string, Json>, papers: seq<Json>): Option<Json> {
    var fromPicks := ScanPicks(picks, m, None);
    if fromPicks.Some? then fromPicks
    else if FirstSummarized(papers).Some? then FirstSummarized(papers)
    else if |papers| > 0 then Some(papers[0])
    else None
  }

  /** A pick row is usable when it is in the map as a dict. */
  predicate Usable(m: map<string, Json>, id: string) {
    id in m && m[id].Obj?
  }

  lemma {:induction false} ScanFirstSummarized(picks: seq<string>, m: map<string, Json>, found: Option<Json>, i: int)
    requires 0 <= i < |picks| && Usable(m, picks[i]) && HasSummaryDict(m[picks[i]])
    requires forall j :: 0 <= j < i ==> !(Usable(m, picks[j]) && HasSummaryDict(m[picks[j]]))
    ensures ScanPicks(picks, m, found) == Some(m[picks[i]])
    decreases i
  {
    if i > 0 {
      var next := if Usable(m, picks[0]) then Some(m[picks[0]]) else found;
      ScanFirstSummarized(picks[1..], m, next, i - 1);
    }
  }

  /** Rule 1: the first usable pick with a summary dict is featured. */
  lemma FeaturedFirstSummarizedPick(picks: seq<string>, m: map<string, Json>, papers: seq<Json>, i: int)
    requires 0 <= i < |picks| && Usable(m, picks[i]) && HasSummaryDict(m[picks[i]])
    requires forall j :: 0 <= j < i ==> !(Usable(m, picks[j]) && HasSummaryDict(m[picks[j]]))
    ensures FeaturedRow(picks, m, papers) == Some(m[picks[i]])
  {
    ScanFirstSummarized(picks, m, None, i);
  }

  lemma {:induction false} ScanLastUsable(picks: seq<string>, m: map<string, Json>, found: Option<Json>, i: int)
    requires 0 <= i < |picks| && Usable(m, picks[i])
    requires forall j :: 0 <= j < |picks| ==> !(Usable(m, picks[j]) && HasSummaryDict(m[picks[j]]))
    requires forall j :: i < j < |picks| ==> !Usable(m, picks[j])
    ensures ScanPicks(picks, m, found) == Some(m[picks[i]])
    decreases |picks|
  {
    var next := if Usable(m, picks[0]) then Some(m[picks[0]]) else found;
    if i == 0 {
      ScanNoneUsable(picks[1..], m, next);
    } else {
      ScanLastUsable(picks[1..], m, next, i - 1);
    }
  }

  lemma {:induction false} ScanNoneUsable(picks: seq<string>, m: map<string, Json>, found: Option<Json>)
    requires forall j :: 0 <= j < |picks| ==> !Usable(m, picks[j])
    ensures ScanPicks(picks, m, found) == found
    decreases |picks|
  {
    if |picks| > 0 {
      ScanNoneUsable(picks[1..], m, found);
    }
  }

  /** Rule 2: when no usable pick has a summary dict, the last usable pick is featured. */
  lemma FeaturedLastUsablePick(picks: seq<string>, m: map<string, Json>, papers: seq<Json>, i: int)
    requires 0 <= i < |picks| && Usable(m, picks[i])
    requires forall j :: 0 <= j < |picks| ==> !(Usable(m, picks[j]) && HasSummaryDict(m[picks[j]]))
    requires forall j :: i < j < |picks| ==> !Usable(m, picks[j])
    ensures FeaturedRow(picks, m, papers) == Some(m[picks[i]])
  {
    ScanLastUsable(picks, m, None, i);
  }

  /** Rules 3 to 5: without a usable pick, the first paper with a summary dict, else the
      first paper, else nothing. */
  lemma FeaturedWithoutPicks(picks: seq<string>, m: map<string, Json>, papers: seq<Json>)
    requires forall j :: 0 <= j < |picks| ==> !Usable(m, picks[j])
    ensures FeaturedRow(picks, m, papers) ==
      if FirstSummarized(papers).Some? then FirstSummarized(papers)
      else if |papers| > 0 then Some(papers[0]) else None
  {
    ScanNoneUsable(picks, m, None);
  }

  /** A month has a featured paper exactly when it has papers. */
  lemma {:induction false} FeaturedExactlyWithPapers(picks: seq<string>, papers: seq<Json>)
    requires forall i :: 0 <= i < |papers| ==> papers[i].Obj?
    ensures FeaturedRow(picks, PaperMap(papers), papers).None? <==> |papers| == 0
  {
    if |papers| == 0 {
      assert forall j :: 0 <= j < |picks| ==> !Usable(PaperMap(papers), picks[j]);
      ScanNoneUsable(picks, PaperMap(papers), None);
    }
  }

  /** The featured paper as the manifest shows it. */
  datatype Featured = Featured(idBase: string, title: string, oneLiner: string, absUrl: string)

  /** The featured title: the summary's title where there is a summary dict (the row's
      title when the summary has none), or the id when that is blank. */
  function FeaturedTitle(row: Json): (t: string)
    ensures Text(row, "arxiv_id_base") != [] ==> t != []
    ensures var summary := GetOr(row, "summary", Null);
      summary.Obj? && Get(summary, "title").Some? && !IsBlank(Display(Get(summary, "title").value)) ==>
        t == Strip(Display(Get(summary, "title").value))
    ensures var summary := GetOr(row, "summary", Null);
      !(summary.Obj? && Get(summary, "title").Some?) && Text(row, "title") != [] ==> t == Text(row, "title")
    ensures var summary := GetOr(row, "summary", Null);
      (summary.Obj? && Get(summary, "title").Some? && IsBlank(Display(Get(summary, "title").value))) ||
      (!(summary.Obj? && Get(summary, "title").Some?) && Text(row, "title") == []) ==>
        t == Text(row, "arxiv_id_base")
  {
    var summary := GetOr(row, "summary", Null);
    var rowTitle := Text(row, "title");
    var title := if summary.Obj? then Strip(Display(GetOr(summary, "title", Str(rowTitle)))) else rowTitle;
    if title == [] then Text(row, "arxiv_id_base") else title
  }

  /** The featured link: the row's `abs` link, or the arXiv abstract page of the id. */
  function FeaturedAbs(row: Json): (u: string)
    ensures Text(row, "arxiv_id_base") != [] ==> u != []
    ensures var links := GetOr(row, "links", Obj([]));
      links.Obj? && Text(links, "abs") != [] ==> u == Text(links, "abs")
    ensures var links := GetOr(row, "links", Obj([]));
      !(links.Obj? && Text(links, "abs") != []) ==>
        u == if Text(row, "arxiv_id_base") != [] then AbsPrefix + Text(row, "arxiv_id_base") else ""
  {
    var links := GetOr(row, "links", Obj([]));
    var id := Text(row, "arxiv_id_base");
    var absUrl := if links.Obj? then Text(links, "abs") else "";
    if absUrl == [] && id != [] then AbsPrefix + id else absUrl
  }

  /** The featured paper of a row. */
  function FeaturedOf(row: Json): (r: Featured)
    ensures r.idBase == Text(row, "arxiv_id_base")
    ensures r.idBase != [] ==> r.title != [] && r.absUrl != []
    ensures r.title == FeaturedTitle(row) && r.absUrl == FeaturedAbs(row)
    ensures HasSummaryDict(row) ==> r.oneLiner == Text(GetOr(row, "summary", Null), "one_liner")
    ensures !HasSummaryDict(row) ==> r.oneLiner == []
  {
    var summary := GetOr(row, "summary", Null);
    Featured(
      Text(row, "arxiv_id_base"),
      FeaturedTitle(row),
      if summary.Obj? then Text(summary, "one_liner") else "",
      FeaturedAbs(row))
  }

  /** A summary without a title leaves the row's title in place. */
  lemma FeaturedTitleFallsBack(row: Json)
    requires HasSummaryDict(row) && Get(GetOr(row, "summary", Null), "title") == None
    ensures FeaturedOf(row).title == (if Text(row, "title") == [] then Text(row, "arxiv_id_base") else Text(row, "title"))
  {
    assert Stripped(Text(row, "title"));
    assert FeaturedOf(row).title == FeaturedTitle(row);
  }

  /** One manifest entry. */
  datatype ManifestItem = ManifestItem(
    month: string,
    href: string,
    jsonPath: string,
    stats: ManifestStats,
    emptyState: string,
    featured: Option<Featured>)

  /** The counters of `_month_manifest_item`, set branch by branch. */
  method CountMonth(payload: Json, codec: Codec) returns (papers: seq<Json>, stats: ManifestStats)
    ensures papers == Papers(payload)
    ensures stats == ManifestStatsOf(payload, papers, codec)
  {
    papers := [];
    var candidates := 0;
    var accepted := 0;
    var summarized := 0;
    if payload.Arr? {
      papers := Filter(payload.items, IsDict());
      accepted := |papers|;
      summarized := |papers|;
      candidates := |papers|;
    } else if payload.Obj? {
      var paperRows := GetOr(payload, "papers", Arr([]));
      if paperRows.Arr? {
        papers := Filter(paperRows.items, IsDict());
      }
      var stats := GetOr(payload, "stats", Obj([]));
      if stats.Obj? {
        var withSummary := |Filter(papers, WithSummary())|;
        candidates := SafeInt(GetOr(stats, "candidates", Int(0)), 0, codec);
        accepted := SafeInt(GetOr(stats, "accepted", Int(|papers|)), |papers|, codec);
        summarized := SafeInt(GetOr(stats, "summarized", Int(withSummary)), withSummary, codec);
      }
    }
    stats := ManifestStats(candidates, accepted, summarized);
  }

  /** The loop over the picks, stopping at the first found pick with a summary dict. */
  method ScanPickLoop(picks: seq<string>, m: map<string, Json>) returns (featuredRow: Option<Json>)
    ensures featuredRow == ScanPicks(picks, m, None)
  {
    featuredRow := None;
    var i := 0;
    while i < |picks|
      invariant 0 <= i <= |picks|
      invariant ScanPicks(picks, m, None) == ScanPicks(picks[i..], m, featuredRow)
    {
      assert picks[i..][1..] == picks[i + 1..];
      if picks[i] in m {
        var row := m[picks[i]];
        if row.Obj? {
          featuredRow := Some(row);
          if HasSummaryDict(row) {
            break;
          }
        }
      }
      i := i + 1;
    }
  }

  /** The loop over the papers, stopping at the first with a summary dict. */
  method FirstSummarizedLoop(papers: seq<Json>) returns (featuredRow: Option<Json>)
    ensures featuredRow == FirstSummarized(papers)
  {
    var i := 0;
    while i < |papers|
      invariant 0 <= i <= |papers|
      invariant FirstSummarized(papers) == FirstSummarized(papers[i..])
    {
      assert papers[i..][1..] == papers[i + 1..];
      if HasSummaryDict(papers[i]) {
        return Some(papers[i]);
      }
      i := i + 1;
    }
    return None;
  }

  /** The featured-row choice of `_month_manifest_item`. */
  method ChooseFeatured(picks: seq<string>, papers: seq<Json>) returns (featuredRow: Option<Json>)
    ensures featuredRow == FeaturedRow(picks, PaperMap(papers), papers)
  {
    featuredRow := None;
    if |picks| > 0 {
      featuredRow := ScanPickLoop(picks, PaperMap(papers));
    } else {
      assert ScanPicks(picks, PaperMap(papers), None) == None;
    }
    if featuredRow.None? {
      featuredRow := FirstSummarizedLoop(papers);
    }
    if featuredRow.None? && |papers| > 0 {
      featuredRow := Some(papers[0]);
    }
  }

  /** `_month_manifest_item` after the payload is loaded (a missing or unreadable file is an
      empty dict). */
  method MonthManifestItem(month: string, payload: Json, codec: Codec) returns (item: ManifestItem)
    ensures item.month == month
    ensures item.href == "digest/" + month + "/index.html"
    ensures item.jsonPath == "digest/" + month + "/papers.json"
    ensures item.stats == ManifestStatsOf(payload, Papers(payload), codec)
    ensures item.emptyState == EmptyState(item.stats)
    ensures var row := FeaturedRow(PickTexts(payload), PaperMap(Papers(payload)), Papers(payload));
      item.featured == if row.Some? then Some(FeaturedOf(row.value)) else None
  {
    var papers, stats := CountMonth(payload, codec);
    var emptyState := EmptyState(stats);
    var picks := PickTexts(payload);
    var featuredRow := ChooseFeatured(picks, papers);
    var featured: Option<Featured> := None;
    if featuredRow.Some? {
      featured := Some(FeaturedOf(featuredRow.value));
    }
    item := ManifestItem(month, "digest/" + month + "/index.html", "digest/" + month + "/papers.json",
                         stats, emptyState, featured);
  }
}
