/** The summary phase of one month in the batch runner: the papers chosen for a summary get
    their PDF fetched and, when it yields text, a summary; the summaries come out sorted by
    (published_date, id), and every candidate gets a backend row, sorted by (published, id).
    The download, the extraction and the summariser are parameters; reading the earlier
    outputs and writing the new ones are left to the caller. */
module BatchSummary {
  import opened Base
  import opened Strings
  import opened JsonValue
  import opened Ordering
  import opened Records
  import opened Selection
  import BatchTriage
  import SiteRows

  const PdfKeys: seq<string> := ["downloaded", "pdf_path", "text_path", "extract_meta"]

  /** The record of what happened to a paper's PDF. */
  function PdfState(downloaded: bool, pdfPath: Json, textPath: Json, meta: Json): (r: Json)
    ensures Keys(r) == PdfKeys
    ensures Get(r, "downloaded") == Some(Bool(downloaded)) && Get(r, "extract_meta") == Some(meta)
  {
    var fields := [("downloaded", Bool(downloaded)), ("pdf_path", pdfPath), ("text_path", textPath), ("extract_meta", meta)];
    LookupAt(fields, 3, "extract_meta");
    Obj(fields)
  }

  /** `_empty_pdf_state()`: nothing downloaded, no paths, no metadata. */
  function EmptyPdfState(): Json {
    PdfState(false, Null, Null, Null)
  }

  /** Where the paper's PDF and text go under the month's output directory. */
  function PdfPath(monthOut: string, aid: string): string {
    monthOut + "/pdfs/" + aid + ".pdf"
  }

  function TextPath(monthOut: string, aid: string): string {
    monthOut + "/text/" + aid + ".txt"
  }

  /** The PDF step's outcome: the PDF state, the raw text and the notes handed to the
      summariser. */
  datatype Attempt = Attempt(pdf: Json, text: string, notes: string)

  /** The PDF step for one paper: without a PDF link nothing is fetched; a download or
      extraction that raises leaves no text and names the exception; otherwise the extracted
      text is read and the notes are the metadata as sorted-key JSON (`dumpsSorted`). */
  function FetchPaper(p: Paper, dl: Download, monthOut: string, dumpsSorted: Json -> string): (a: Attempt)
    ensures Keys(a.pdf) == PdfKeys
    ensures p.links.pdf == "" ==>
      a == Attempt(PdfState(false, Null, Null, Obj([("error", Str("missing_pdf_link"))])), "",
                   "summary_skipped:missing_pdf_link")
    ensures p.links.pdf != "" && dl.DownloadFailed? ==>
      a.text == "" && a.notes == "summary_skipped:pdf_failed:" + dl.name &&
      Get(a.pdf, "extract_meta") == Some(Obj([("error", Str("download_or_extract_failed:" + dl.name))]))
    ensures p.links.pdf != "" && dl.Downloaded? ==>
      a.text == dl.text && a.notes == dumpsSorted(dl.meta) && Get(a.pdf, "extract_meta") == Some(dl.meta)
  {
    var aid := p.idBase;
    if p.links.pdf == "" then
      Attempt(PdfState(false, Null, Null, Obj([("error", Str("missing_pdf_link"))])), "",
              "summary_skipped:missing_pdf_link")
    else
      var pdfPath := Str(PdfPath(monthOut, aid));
      var textPath := Str(TextPath(monthOut, aid));
      match dl
      case DownloadFailed(name) =>
        Attempt(PdfState(false, pdfPath, textPath, Obj([("error", Str("download_or_extract_failed:" + name))])), "",
                "summary_skipped:pdf_failed:" + name)
      case Downloaded(text, meta) =>
        Attempt(PdfState(true, pdfPath, textPath, meta), text, dumpsSorted(meta))
  }

  /** Text to summarise only ever comes from a PDF that was downloaded and extracted. */
  lemma TextOnlyWhenDownloaded(p: Paper, dl: Download, monthOut: string, dumpsSorted: Json -> string)
    ensures var a := FetchPaper(p, dl, monthOut, dumpsSorted);
      !IsBlank(a.text) ==> Get(a.pdf, "downloaded") == Some(Bool(true)) && p.links.pdf != "" && dl.Downloaded?
  {
    var a := FetchPaper(p, dl, monthOut, dumpsSorted);
    if !IsBlank(a.text) {
      assert a.text != "";
    }
  }

  /** What the loop works with besides the papers: the triage index, the summary force flag,
      the month's output directory, sorted-key `json.dumps`, and the summariser, given the
      paper, its triage row (`{}` without one), the raw text and the notes. */
  datatype Context = Context(
    tm: map<string, Json>,
    force: bool,
    monthOut: string,
    dumpsSorted: Json -> string,
    summarize: (Paper, Json, string, string) -> Result<Json>)

  /** `triage_map.get(aid, {})` */
  function TriageOf(tm: map<string, Json>, aid: string): Json {
    if aid in tm then tm[aid] else Obj([])
  }

  /** The summaries so far, keyed by id in insertion order, and the PDF states by id. */
  datatype Maps = Maps(summaries: seq<(string, Json)>, pdfs: map<string, Json>)

  /** The paper is passed over: it has a summary already and the run is not forced. */
  predicate Skipped(m: Maps, aid: string, force: bool) {
    Lookup(m.summaries, aid).Some? && !force
  }

  /** One turn of the summary loop. A paper passed over changes nothing. Otherwise its PDF
      step runs, non-blank text is summarised and the summary stored under its id, and its PDF
      state is recorded; an exception from the summariser, or from the database upsert reading
      the summary's own `arxiv_id_base`, ends the phase. */
  function Visit(m: Maps, p: Paper, dl: Download, ctx: Context): Result<Maps> {
    var aid := p.idBase;
    if Skipped(m, aid, ctx.force) then Ok(m)
    else
      var a := FetchPaper(p, dl, ctx.monthOut, ctx.dumpsSorted);
      if !IsBlank(a.text) then
        var summary :- ctx.summarize(p, TriageOf(ctx.tm, aid), a.text, a.notes);
        var _ :- RowKey(summary);
        Ok(Maps(Store(m.summaries, aid, summary), m.pdfs[aid := a.pdf]))
      else Ok(Maps(m.summaries, m.pdfs[aid := a.pdf]))
  }

  /** The turn for a paper with non-blank text raises `exc`: the summariser raised it, or it
      returned a summary whose id cannot be read. */
  predicate TurnRaises(p: Paper, dl: Download, ctx: Context, exc: Exc) {
    var a := FetchPaper(p, dl, ctx.monthOut, ctx.dumpsSorted);
    var s := ctx.summarize(p, TriageOf(ctx.tm, p.idBase), a.text, a.notes);
    !IsBlank(a.text) && (s == Err(exc) || (s.Ok? && RowKey(s.value) == Err(exc)))
  }

  /** What one turn does: a paper passed over changes nothing; only the summariser, or the
      upsert of a summary without a readable id, can fail;
      otherwise the paper's PDF state is recorded, no other paper's summary changes, and a
      summary once there stays. */
  lemma VisitEffect(m: Maps, p: Paper, dl: Download, ctx: Context, k: string)
    ensures var r := Visit(m, p, dl, ctx);
      (Skipped(m, p.idBase, ctx.force) ==> r == Ok(m)) &&
      (r.Err? ==> !Skipped(m, p.idBase, ctx.force) && TurnRaises(p, dl, ctx, r.exc)) &&
      (r.Ok? && !Skipped(m, p.idBase, ctx.force) ==>
        r.value.pdfs == m.pdfs[p.idBase := FetchPaper(p, dl, ctx.monthOut, ctx.dumpsSorted).pdf]) &&
      (r.Ok? ==> m.pdfs.Keys <= r.value.pdfs.Keys) &&
      (r.Ok? && k != p.idBase ==> Lookup(r.value.summaries, k) == Lookup(m.summaries, k)) &&
      (r.Ok? && Lookup(m.summaries, k).Some? ==> Lookup(r.value.summaries, k).Some?)
  {
    if !Skipped(m, p.idBase, ctx.force) {
      var a := FetchPaper(p, dl, ctx.monthOut, ctx.dumpsSorted);
      if !IsBlank(a.text) {
        var s := ctx.summarize(p, TriageOf(ctx.tm, p.idBase), a.text, a.notes);
        if s.Ok? && Keyed(s.value) {
          var stored := Store(m.summaries, p.idBase, s.value);
          assert Visit(m, p, dl, ctx) == Ok(Maps(stored, m.pdfs[p.idBase := a.pdf]));
        }
      }
    }
  }

  /** A loop over the papers, given each paper's download outcome, that stops at the first
      failing turn. */
  function Run(papers: seq<Paper>, dls: seq<Download>, start: Maps, visit: (Maps, Paper, Download) -> Result<Maps>)
    : Result<Maps>
    requires |dls| == |papers|
    decreases |papers|
  {
    if |papers| == 0 then Ok(start)
    else
      var n := |papers| - 1;
      var m :- Run(papers[..n], dls[..n], start, visit);
      visit(m, papers[n], dls[n])
  }

  /** Once the loop has failed, the rest of the papers change nothing. */
  lemma {:induction false} RunStopped(papers: seq<Paper>, dls: seq<Download>, start: Maps,
                                      visit: (Maps, Paper, Download) -> Result<Maps>, k: int)
    requires |dls| == |papers| && 0 <= k <= |papers|
    requires Run(papers[..k], dls[..k], start, visit).Err?
    ensures Run(papers, dls, start, visit) == Run(papers[..k], dls[..k], start, visit)
    decreases |papers|
  {
    if k == |papers| {
      assert papers[..k] == papers && dls[..k] == dls;
    } else {
      var n := |papers| - 1;
      assert papers[..n][..k] == papers[..k] && dls[..n][..k] == dls[..k];
      RunStopped(papers[..n], dls[..n], start, visit, k);
    }
  }

  /** One more paper is one more turn after the loop so far. */
  lemma RunSnoc(papers: seq<Paper>, dls: seq<Download>, start: Maps, visit: (Maps, Paper, Download) -> Result<Maps>,
                i: int)
    requires |dls| == |papers| && 0 <= i < |papers|
    requires Run(papers[..i], dls[..i], start, visit).Ok?
    ensures Run(papers[..i + 1], dls[..i + 1], start, visit) ==
            visit(Run(papers[..i], dls[..i], start, visit).value, papers[i], dls[i])
  {
    assert papers[..i + 1][..i] == papers[..i] && dls[..i + 1][..i] == dls[..i];
  }

  function Visitor(ctx: Context): (Maps, Paper, Download) -> Result<Maps> {
    (m: Maps, p: Paper, dl: Download) => Visit(m, p, dl, ctx)
  }

  /** The summary loop over the chosen papers. */
  function SummaryRun(papers: seq<Paper>, dls: seq<Download>, start: Maps, ctx: Context): Result<Maps>
    requires |dls| == |papers|
  {
    Run(papers, dls, start, Visitor(ctx))
  }

  /** A summary already there when the run is not forced is kept as it is: it is never
      summarised again. */
  lemma {:induction false} CachedSummaryKept(papers: seq<Paper>, dls: seq<Download>, start: Maps, ctx: Context,
                                             aid: string)
    requires |dls| == |papers| && !ctx.force && Lookup(start.summaries, aid).Some?
    requires SummaryRun(papers, dls, start, ctx).Ok?
    ensures Lookup(SummaryRun(papers, dls, start, ctx).value.summaries, aid) == Lookup(start.summaries, aid)
    decreases |papers|
  {
    if |papers| > 0 {
      var n := |papers| - 1;
      CachedSummaryKept(papers[..n], dls[..n], start, ctx, aid);
      VisitEffect(SummaryRun(papers[..n], dls[..n], start, ctx).value, papers[n], dls[n], ctx, aid);
    }
  }

  /** Every paper has its PDF state recorded, unless it was passed over for a summary it had
      when the run started. */
  lemma {:induction false} PdfStateRecorded(papers: seq<Paper>, dls: seq<Download>, start: Maps, ctx: Context, i: int)
    requires |dls| == |papers| && 0 <= i < |papers|
    requires SummaryRun(papers, dls, start, ctx).Ok?
    ensures papers[i].idBase in SummaryRun(papers, dls, start, ctx).value.pdfs ||
            (!ctx.force && Lookup(start.summaries, papers[i].idBase).Some?)
    decreases |papers|
  {
    var n := |papers| - 1;
    RunSnoc(papers, dls, start, Visitor(ctx), n);
    assert papers[..n + 1] == papers && dls[..n + 1] == dls;
    var prev := SummaryRun(papers[..n], dls[..n], start, ctx).value;
    var aid := papers[i].idBase;
    VisitEffect(prev, papers[n], dls[n], ctx, aid);
    if i < n {
      PdfStateRecorded(papers[..n], dls[..n], start, ctx, i);
      assert papers[..n][i] == papers[i];
      assert aid in prev.pdfs || (!ctx.force && Lookup(start.summaries, aid).Some?);
    } else if Skipped(prev, aid, ctx.force) && Lookup(start.summaries, aid).None? {
      SummaryFromPaper(papers[..n], dls[..n], start, ctx, aid);
      var j :| 0 <= j < n && papers[..n][j].idBase == aid;
      PdfStateRecorded(papers[..n], dls[..n], start, ctx, j);
      assert aid in prev.pdfs;
    }
  }

  /** A summary the loop added belongs to one of the papers it went through. */
  lemma {:induction false} SummaryFromPaper(papers: seq<Paper>, dls: seq<Download>, start: Maps, ctx: Context,
                                            aid: string)
    requires |dls| == |papers| && SummaryRun(papers, dls, start, ctx).Ok?
    requires Lookup(SummaryRun(papers, dls, start, ctx).value.summaries, aid).Some?
    requires Lookup(start.summaries, aid).None?
    ensures exists j :: 0 <= j < |papers| && papers[j].idBase == aid
    decreases |papers|
  {
    var n := |papers| - 1;
    RunSnoc(papers, dls, start, Visitor(ctx), n);
    assert papers[..n + 1] == papers && dls[..n + 1] == dls;
    var prev := SummaryRun(papers[..n], dls[..n], start, ctx);
    VisitEffect(prev.value, papers[n], dls[n], ctx, aid);
    if Lookup(prev.value.summaries, aid).Some? {
      SummaryFromPaper(papers[..n], dls[..n], start, ctx, aid);
      var j :| 0 <= j < n && papers[..n][j].idBase == aid;
      assert papers[j].idBase == aid;
    } else {
      assert papers[n].idBase == aid;
    }
  }

  /** The loop fails only with what the summariser raised for one of the papers, or with the
      error of reading the id of a summary it returned. */
  lemma {:induction false} SummaryRunFails(papers: seq<Paper>, dls: seq<Download>, start: Maps, ctx: Context)
    requires |dls| == |papers| && SummaryRun(papers, dls, start, ctx).Err?
    ensures exists i :: 0 <= i < |papers| && TurnRaises(papers[i], dls[i], ctx, SummaryRun(papers, dls, start, ctx).exc)
    decreases |papers|
  {
    var n := |papers| - 1;
    var prev := SummaryRun(papers[..n], dls[..n], start, ctx);
    if prev.Err? {
      SummaryRunFails(papers[..n], dls[..n], start, ctx);
      var i :| 0 <= i < n && TurnRaises(papers[..n][i], dls[..n][i], ctx, prev.exc);
      assert papers[..n][i] == papers[i] && dls[..n][i] == dls[i];
      assert TurnRaises(papers[i], dls[i], ctx, SummaryRun(papers, dls, start, ctx).exc);
    } else {
      VisitEffect(prev.value, papers[n], dls[n], ctx, papers[n].idBase);
      assert TurnRaises(papers[n], dls[n], ctx, SummaryRun(papers, dls, start, ctx).exc);
    }
  }

  lemma VisitSkips(m: Maps, p: Paper, dl: Download, ctx: Context)
    requires Skipped(m, p.idBase, ctx.force)
    ensures Visit(m, p, dl, ctx) == Ok(m)
  {
  }

  lemma VisitFails(m: Maps, p: Paper, dl: Download, ctx: Context)
    requires !Skipped(m, p.idBase, ctx.force)
    requires var a := FetchPaper(p, dl, ctx.monthOut, ctx.dumpsSorted);
      !IsBlank(a.text) && ctx.summarize(p, TriageOf(ctx.tm, p.idBase), a.text, a.notes).Err?
    ensures var a := FetchPaper(p, dl, ctx.monthOut, ctx.dumpsSorted);
      Visit(m, p, dl, ctx) == Err(ctx.summarize(p, TriageOf(ctx.tm, p.idBase), a.text, a.notes).exc)
  {
  }

  lemma VisitUnkeyedFails(m: Maps, p: Paper, dl: Download, ctx: Context)
    requires !Skipped(m, p.idBase, ctx.force)
    requires var a := FetchPaper(p, dl, ctx.monthOut, ctx.dumpsSorted);
      var s := ctx.summarize(p, TriageOf(ctx.tm, p.idBase), a.text, a.notes);
      !IsBlank(a.text) && s.Ok? && !Keyed(s.value)
    ensures var a := FetchPaper(p, dl, ctx.monthOut, ctx.dumpsSorted);
      var s := ctx.summarize(p, TriageOf(ctx.tm, p.idBase), a.text, a.notes);
      Visit(m, p, dl, ctx) == Err(RowKey(s.value).exc)
  {
  }

  lemma VisitRecords(m: Maps, p: Paper, dl: Download, ctx: Context)
    requires !Skipped(m, p.idBase, ctx.force)
    requires var a := FetchPaper(p, dl, ctx.monthOut, ctx.dumpsSorted);
      var s := ctx.summarize(p, TriageOf(ctx.tm, p.idBase), a.text, a.notes);
      IsBlank(a.text) || (s.Ok? && Keyed(s.value))
    ensures var a := FetchPaper(p, dl, ctx.monthOut, ctx.dumpsSorted);
      var s := ctx.summarize(p, TriageOf(ctx.tm, p.idBase), a.text, a.notes);
      Visit(m, p, dl, ctx) ==
        Ok(Maps(if IsBlank(a.text) then m.summaries else Store(m.summaries, p.idBase, s.value),
                m.pdfs[p.idBase := a.pdf]))
  {
  }

  /** The summary loop, updating the two maps in place. */
  method SummaryLoop(papers: seq<Paper>, dls: seq<Download>, start: Maps, ctx: Context) returns (r: Result<Maps>)
    requires |dls| == |papers|
    ensures r == SummaryRun(papers, dls, start, ctx)
  {
    var m := start;
    var i := 0;
    while i < |papers|
      invariant 0 <= i <= |papers|
      invariant Run(papers[..i], dls[..i], start, Visitor(ctx)) == Ok(m)
    {
      RunSnoc(papers, dls, start, Visitor(ctx), i);
      var next := SummaryStep(m, papers[i], dls[i], ctx);
      if next.Err? {
        RunStopped(papers, dls, start, Visitor(ctx), i + 1);
        return next;
      }
      m := next.value;
      i := i + 1;
    }
    assert papers[..i] == papers && dls[..i] == dls;
    r := Ok(m);
  }

  /** The body of the summary loop for one paper. */
  method SummaryStep(m: Maps, p: Paper, dl: Download, ctx: Context) returns (r: Result<Maps>)
    ensures r == Visit(m, p, dl, ctx)
  {
    var aid := p.idBase;
    if Lookup(m.summaries, aid).Some? && !ctx.force {
      VisitSkips(m, p, dl, ctx);
      return Ok(m);
    }
    var summaries := m.summaries;
    var a := FetchPaper(p, dl, ctx.monthOut, ctx.dumpsSorted);
    if !IsBlank(a.text) {
      var summary := ctx.summarize(p, TriageOf(ctx.tm, aid), a.text, a.notes);
      if summary.Err? {
        VisitFails(m, p, dl, ctx);
        return Err(summary.exc);
      }
      var key := RowKey(summary.value);
      if key.Err? {
        VisitUnkeyedFails(m, p, dl, ctx);
        return Err(key.exc);
      }
      summaries := Store(summaries, aid, summary.value);
    }
    VisitRecords(m, p, dl, ctx);
    r := Ok(Maps(summaries, m.pdfs[aid := a.pdf]));
  }

  /** The sort key `(x["published_date"], x["arxiv_id_base"])` of a summary; indexing raises
      on a summary that is not a dict or lacks either key. */
  function SummaryKeyOf(s: Json): (r: Result<Key>)
    ensures r.Ok? <==> s.Obj? && Get(s, "published_date").Some? && Get(s, "arxiv_id_base").Some?
    ensures r.Ok? ==> r.value == SiteRows.SummaryKey(s)
  {
    if !s.Obj? then Err(Raise("TypeError"))
    else match (Get(s, "published_date"), Get(s, "arxiv_id_base"))
      case (None, _) => Err(Raise("KeyError"))
      case (_, None) => Err(Raise("KeyError"))
      case (Some(date), Some(id)) => Ok([AStr(Display(date)), AStr(Display(id))])
  }

  /** The first summary, in order, whose key cannot be read. */
  function FirstKeyError(values: seq<Json>): (r: Option<Exc>)
    ensures r.None? <==> forall i :: 0 <= i < |values| ==> SummaryKeyOf(values[i]).Ok?
  {
    if |values| == 0 then None
    else match SummaryKeyOf(values[0])
      case Err(e) => Some(e)
      case Ok(_) =>
        var rest := values[1..];
        var r := FirstKeyError(rest);
        assert r.None? <==> forall i :: 0 <= i < |values| ==> SummaryKeyOf(values[i]).Ok? by {
          assert forall i :: 1 <= i < |values| ==> rest[i - 1] == values[i];
        }
        r
  }

  function Values(fs: seq<(string, Json)>): (vs: seq<Json>)
    ensures |vs| == |fs| && forall i :: 0 <= i < |fs| ==> vs[i] == fs[i].1
  {
    seq(|fs|, i requires 0 <= i < |fs| => fs[i].1)
  }

  /** `sorted(values, key=lambda x: (x["published_date"], x["arxiv_id_base"]))`: the
      summaries in (published_date, id) order, or the exception the first unreadable key
      raises. */
  function SortedByDate(values: seq<Json>): (r: Result<seq<Json>>)
    ensures r.Ok? <==> forall i :: 0 <= i < |values| ==> SummaryKeyOf(values[i]).Ok?
    ensures r.Ok? ==> multiset(r.value) == multiset(values)
    ensures r.Ok? ==> SortedBy(r.value, SiteRows.SummaryKey, false)
  {
    match FirstKeyError(values)
    case Some(e) => Err(e)
    case None => Ok(SortBy(values, SiteRows.SummaryKey, false))
  }

  /** `sorted(summary_map.values(), key=…)` */
  function SortedSummaries(summaries: seq<(string, Json)>): (r: Result<seq<Json>>)
    ensures r.Ok? <==> forall i :: 0 <= i < |summaries| ==> SummaryKeyOf(summaries[i].1).Ok?
    ensures r.Ok? ==> multiset(r.value) == multiset(Values(summaries))
    ensures r.Ok? ==> SortedBy(r.value, SiteRows.SummaryKey, false)
  {
    SortedByDate(Values(summaries))
  }

  /** The fields of a candidate every backend row repeats. */
  function PaperFields(p: Paper): seq<(string, Json)> {
    [("arxiv_id", Str(p.arxivId)), ("arxiv_id_base", Str(p.idBase)), ("version", p.version),
     ("title", Str(p.title)), ("summary", Str(p.summary)), ("authors", StrList(p.authors)),
     ("categories", StrList(p.categories)), ("published", Str(p.published)), ("updated", Str(p.updated)),
     ("links", LinksJson(p.links))]
  }

  const BackendKeys: seq<string> := ["arxiv_id", "arxiv_id_base", "version", "title", "summary", "authors",
                                     "categories", "published", "updated", "links", "triage", "paper_summary", "pdf"]

  /** The fields of a backend row, with the triage view, the summary and the PDF state given. */
  function BackendFields(p: Paper, view: Json, summary: Json, pdf: Json): seq<(string, Json)> {
    PaperFields(p) + [("triage", view), ("paper_summary", summary), ("pdf", pdf)]
  }

  lemma BackendFieldsKeys(p: Paper, view: Json, summary: Json, pdf: Json)
    ensures Keys(Obj(BackendFields(p, view, summary, pdf))) == BackendKeys
  {
    assert KeysOf(BackendFields(p, view, summary, pdf)) == BackendKeys;
  }

  lemma BackendFieldsKey(p: Paper, view: Json, summary: Json, pdf: Json)
    ensures SiteRows.BackendKey(Obj(BackendFields(p, view, summary, pdf))) == PublishedKey(p)
  {
    var fields := BackendFields(p, view, summary, pdf);
    LookupAt(fields, 1, "arxiv_id_base");
    LookupAt(fields, 7, "published");
  }

  lemma BackendFieldsRead(p: Paper, view: Json, summary: Json, pdf: Json)
    ensures var row := Obj(BackendFields(p, view, summary, pdf));
      Get(row, "triage") == Some(view) && Get(row, "paper_summary") == Some(summary) && Get(row, "pdf") == Some(pdf)
  {
    var fields := BackendFields(p, view, summary, pdf);
    LookupAt(fields, 10, "triage");
    LookupAt(fields, 11, "paper_summary");
    LookupAt(fields, 12, "pdf");
  }

  /** `triage_map.get(aid)`: the paper's triage row, or None. */
  function TriageRowOf(tm: map<string, Json>, aid: string): Json {
    if aid in tm then tm[aid] else Null
  }

  /** A candidate's backend row: the paper's fields, the triage view of its row, its summary or
      null, and its PDF state or the empty one. Reading the triage confidence may raise. */
  function BackendRow(p: Paper, tm: map<string, Json>, m: Maps, codec: Codec): (r: Result<Json>)
    ensures r.Err? <==> BatchTriage.TriageView(TriageRowOf(tm, p.idBase), codec).Err?
    ensures r.Ok? ==> Keys(r.value) == BackendKeys && SiteRows.BackendKey(r.value) == PublishedKey(p)
    ensures r.Ok? ==> Get(r.value, "triage") == Some(BatchTriage.TriageView(TriageRowOf(tm, p.idBase), codec).value)
    ensures r.Ok? ==> Get(r.value, "paper_summary") == Some(Lookup(m.summaries, p.idBase).GetOr(Null))
    ensures r.Ok? ==> Get(r.value, "pdf") == Some(if p.idBase in m.pdfs then m.pdfs[p.idBase] else EmptyPdfState())
  {
    var aid := p.idBase;
    var view :- BatchTriage.TriageView(TriageRowOf(tm, aid), codec);
    var summary := Lookup(m.summaries, aid).GetOr(Null);
    var pdf := if aid in m.pdfs then m.pdfs[aid] else EmptyPdfState();
    BackendFieldsKeys(p, view, summary, pdf);
    BackendFieldsKey(p, view, summary, pdf);
    BackendFieldsRead(p, view, summary, pdf);
    Ok(Obj(BackendFields(p, view, summary, pdf)))
  }

  /** `f` applied to each element in order, or the first exception it raises. */
  function TryMap<T, U>(s: seq<T>, f: T -> Result<U>): (r: Result<seq<U>>)
    ensures r.Ok? <==> forall i :: 0 <= i < |s| ==> f(s[i]).Ok?
    ensures r.Ok? ==> |r.value| == |s| && forall i :: 0 <= i < |s| ==> r.value[i] == f(s[i]).value
    decreases |s|
  {
    if |s| == 0 then Ok([])
    else
      var n := |s| - 1;
      assert forall i :: 0 <= i < n ==> s[..n][i] == s[i];
      var init :- TryMap(s[..n], f);
      var last :- f(s[n]);
      Ok(init + [last])
  }

  /** An element whose `f` raises ends the map with that exception, whatever follows. */
  lemma {:induction false} TryMapStopped<T, U>(s: seq<T>, f: T -> Result<U>, i: int)
    requires 0 <= i < |s| && TryMap(s[..i], f).Ok? && f(s[i]).Err?
    ensures TryMap(s, f) == Err(f(s[i]).exc)
    decreases |s|
  {
    var n := |s| - 1;
    if i == n {
      assert s[..i] == s[..n];
    } else {
      assert s[..n][..i] == s[..i];
      TryMapStopped(s[..n], f, i);
    }
  }

  lemma TryMapSnoc<T, U>(s: seq<T>, f: T -> Result<U>, i: int)
    requires 0 <= i < |s| && TryMap(s[..i], f).Ok? && f(s[i]).Ok?
    ensures TryMap(s[..i + 1], f) == Ok(TryMap(s[..i], f).value + [f(s[i]).value])
  {
    assert s[..i + 1][..i] == s[..i];
  }

  function RowMaker(tm: map<string, Json>, m: Maps, codec: Codec): Paper -> Result<Json> {
    (p: Paper) => BackendRow(p, tm, m, codec)
  }

  /** The candidates' backend rows, in the given order, or the exception the first triage
      view raises. */
  function BackendRows(papers: seq<Paper>, tm: map<string, Json>, m: Maps, codec: Codec): (r: Result<seq<Json>>)
    ensures r.Ok? <==>
      forall i :: 0 <= i < |papers| ==> BatchTriage.TriageView(TriageRowOf(tm, papers[i].idBase), codec).Ok?
    ensures r.Ok? ==> |r.value| == |papers|
    ensures r.Ok? ==> forall i :: 0 <= i < |papers| ==>
      Keys(r.value[i]) == BackendKeys && SiteRows.BackendKey(r.value[i]) == PublishedKey(papers[i])
  {
    var r := TryMap(papers, RowMaker(tm, m, codec));
    assert forall i :: 0 <= i < |papers| ==> RowMaker(tm, m, codec)(papers[i]) == BackendRow(papers[i], tm, m, codec);
    r
  }

  /** Rows built from candidates in (published, id) order are in that order too. */
  lemma BackendRowsSorted(papers: seq<Paper>, tm: map<string, Json>, m: Maps, codec: Codec)
    requires SortedBy(papers, PublishedKey, false)
    requires BackendRows(papers, tm, m, codec).Ok?
    ensures SortedBy(BackendRows(papers, tm, m, codec).value, SiteRows.BackendKey, false)
  {
    var rows := BackendRows(papers, tm, m, codec).value;
    forall i, j | 0 <= i < j < |rows|
      ensures InOrder(SiteRows.BackendKey(rows[i]), SiteRows.BackendKey(rows[j]), false)
    {
      assert InOrder(PublishedKey(papers[i]), PublishedKey(papers[j]), false);
    }
  }

  /** The backend-row loop, over the candidates in the order given. */
  method BackendRowsLoop(papers: seq<Paper>, tm: map<string, Json>, m: Maps, codec: Codec)
    returns (r: Result<seq<Json>>)
    ensures r == BackendRows(papers, tm, m, codec)
  {
    var rows: seq<Json> := [];
    var i := 0;
    while i < |papers|
      invariant 0 <= i <= |papers|
      invariant TryMap(papers[..i], RowMaker(tm, m, codec)) == Ok(rows)
    {
      var row := RowMaker(tm, m, codec)(papers[i]);
      if row.Err? {
        TryMapStopped(papers, RowMaker(tm, m, codec), i);
        return Err(row.exc);
      }
      TryMapSnoc(papers, RowMaker(tm, m, codec), i);
      rows := rows + [row.value];
      i := i + 1;
    }
    assert papers[..i] == papers;
    r := Ok(rows);
  }

  /** One earlier summary entered into the summary map, in insertion order; like the triage
      index, only a string id can match a paper, and an unreadable or unhashable id raises. */
  function StoreSummary(before: seq<(string, Json)>, s: Json): (r: Result<seq<(string, Json)>>)
    ensures r.Ok? <==> Indexable(s)
    ensures r.Ok? && Get(s, "arxiv_id_base").value.Str? ==> r.value == Store(before, Get(s, "arxiv_id_base").value.s, s)
    ensures r.Ok? && !Get(s, "arxiv_id_base").value.Str? ==> r.value == before
  {
    if !Indexable(s) then Err(Raise(if s.Obj? && Get(s, "arxiv_id_base").None? then "KeyError" else "TypeError"))
    else
      var id := Get(s, "arxiv_id_base").value;
      if id.Str? then Ok(Store(before, id.s, s)) else Ok(before)
  }

  /** `{s["arxiv_id_base"]: s for s in existing}`, keeping the order of first insertion. */
  function SummaryMapOf(existing: seq<Json>): (r: Result<seq<(string, Json)>>)
    ensures r.Ok? <==> forall i :: 0 <= i < |existing| ==> Indexable(existing[i])
    decreases |existing|
  {
    if |existing| == 0 then Ok([])
    else
      var n := |existing| - 1;
      assert forall i :: 0 <= i < n ==> existing[..n][i] == existing[i];
      var before :- SummaryMapOf(existing[..n]);
      StoreSummary(before, existing[n])
  }

  /** An ordered summary map and a dict hold the same entries. */
  ghost predicate SameEntries(fs: seq<(string, Json)>, index: map<string, Json>) {
    forall k :: Lookup(fs, k) == (if k in index then Some(index[k]) else None)
  }

  /** The summary map holds what the dict comprehension does: the same ids, each with the last
      summary that carries it. */
  lemma {:induction false} SummaryMapAgrees(existing: seq<Json>)
    ensures SummaryMapOf(existing).Ok? <==> TriageIndex(existing).Ok?
    ensures SummaryMapOf(existing).Ok? ==> SameEntries(SummaryMapOf(existing).value, TriageIndex(existing).value)
    decreases |existing|
  {
    if |existing| > 0 {
      var n := |existing| - 1;
      SummaryMapAgrees(existing[..n]);
      var r := SummaryMapOf(existing);
      if r.Ok? {
        var fs := SummaryMapOf(existing[..n]).value;
        var index := TriageIndex(existing[..n]).value;
        assert r == StoreSummary(fs, existing[n]);
        assert TriageIndex(existing) == IndexRow(index, existing[n]);
        StoreAgrees(fs, index, existing[n]);
      }
    }
  }

  lemma StoreAgrees(fs: seq<(string, Json)>, index: map<string, Json>, s: Json)
    requires SameEntries(fs, index) && Indexable(s)
    ensures SameEntries(StoreSummary(fs, s).value, IndexRow(index, s).value)
  {
  }

  /** The PDF state an earlier backend row carries: its `pdf` when truthy, else the empty one. */
  function PdfOfRow(row: Json): Json {
    var pdf := GetOr(row, "pdf", Null);
    if Truthy(pdf) then pdf else EmptyPdfState()
  }

  /** One earlier backend row entered into the PDF map under `row.get("arxiv_id_base", "")`;
      `.get` on a row that is not a dict raises, and so does an unhashable id. */
  function StorePdf(before: map<string, Json>, row: Json): (r: Result<map<string, Json>>)
    ensures r.Ok? <==> row.Obj? && !GetOr(row, "arxiv_id_base", Str("")).Arr? && !GetOr(row, "arxiv_id_base", Str("")).Obj?
    ensures r.Ok? && GetOr(row, "arxiv_id_base", Str("")).Str? ==>
      r.value == before[GetOr(row, "arxiv_id_base", Str("")).s := PdfOfRow(row)]
    ensures r.Ok? && !GetOr(row, "arxiv_id_base", Str("")).Str? ==> r.value == before
  {
    if !row.Obj? then Err(Raise("AttributeError"))
    else
      var id := GetOr(row, "arxiv_id_base", Str(""));
      if id.Arr? || id.Obj? then Err(Raise("TypeError"))
      else if id.Str? then Ok(before[id.s := PdfOfRow(row)])
      else Ok(before)
  }

  /** `{row.get("arxiv_id_base", ""): row.get("pdf") or _empty_pdf_state() for row in rows}` */
  function PdfMapOf(rows: seq<Json>): (r: Result<map<string, Json>>)
    ensures r.Ok? <==> forall i :: 0 <= i < |rows| ==> StorePdf(map[], rows[i]).Ok?
    decreases |rows|
  {
    if |rows| == 0 then Ok(map[])
    else
      var n := |rows| - 1;
      assert forall i :: 0 <= i < n ==> rows[..n][i] == rows[i];
      var before :- PdfMapOf(rows[..n]);
      StorePdf(before, rows[n])
  }

  /** The PDF map keeps, for each id, the state from the last row that carries it. */
  lemma {:induction false} PdfMapLastWins(rows: seq<Json>, i: int, aid: string)
    requires 0 <= i < |rows| && PdfMapOf(rows).Ok?
    requires GetOr(rows[i], "arxiv_id_base", Str("")) == Str(aid)
    requires forall j :: i < j < |rows| ==> GetOr(rows[j], "arxiv_id_base", Str("")) != Str(aid)
    ensures aid in PdfMapOf(rows).value && PdfMapOf(rows).value[aid] == PdfOfRow(rows[i])
    decreases |rows|
  {
    var n := |rows| - 1;
    var init := rows[..n];
    assert forall k :: 0 <= k < n ==> init[k] == rows[k];
    var m := PdfMapOf(init).value;
    assert PdfMapOf(rows) == StorePdf(m, rows[n]);
    if i < n {
      PdfMapLastWins(init, i, aid);
    }
  }

  /** The phase's outputs: the summaries for `papers.jsonl` and the rows for
      `backend_rows.jsonl`. */
  datatype Outputs = Outputs(summaries: seq<Json>, backendRows: seq<Json>)

  /** Each chosen paper's download outcome, in order. */
  function Downloads(papers: seq<Paper>, download: Paper -> Download): (dls: seq<Download>)
    ensures |dls| == |papers| && forall i :: 0 <= i < |papers| ==> dls[i] == download(papers[i])
  {
    seq(|papers|, i requires 0 <= i < |papers| => download(papers[i]))
  }

  /** The maps the summary loop starts from: the earlier summaries (none when forced), then the
      earlier PDF states; either comprehension may raise. */
  function StartMaps(existingSummaries: seq<Json>, existingBackend: seq<Json>, force: bool): Result<Maps> {
    var summaries :- if force then Ok([]) else SummaryMapOf(existingSummaries);
    var pdfs :- PdfMapOf(existingBackend);
    Ok(Maps(summaries, pdfs))
  }

  /** The summary loop of the phase, over the papers chosen from the triage index. */
  function PhaseRun(cands: seq<Paper>, tm: map<string, Json>, existingSummaries: seq<Json>,
                    existingBackend: seq<Json>, includeBorderline: bool, maxAccepted: Option<int>,
                    force: bool, monthOut: string, dumpsSorted: Json -> string,
                    summarize: (Paper, Json, string, string) -> Result<Json>,
                    download: Paper -> Download): Result<Maps>
  {
    var start :- StartMaps(existingSummaries, existingBackend, force);
    var chosen := BatchSelection(cands, tm, includeBorderline, maxAccepted);
    SummaryRun(chosen, Downloads(chosen, download), start, Context(tm, force, monthOut, dumpsSorted, summarize))
  }

  /** `_run_summary_phase_for_month` once both input files are there: index the triage rows,
      choose the papers, start from the earlier summaries (none when forced) and the earlier
      PDF states, run the summary loop, then sort the summaries and build a backend row for
      every candidate. `download` stands for fetching and extracting a paper's PDF. */
  method SummaryPhase(cands: seq<Paper>, triageRows: seq<Json>, existingSummaries: seq<Json>,
                      existingBackend: seq<Json>, includeBorderline: bool, maxAccepted: Option<int>,
                      force: bool, monthOut: string, dumpsSorted: Json -> string,
                      summarize: (Paper, Json, string, string) -> Result<Json>,
                      download: Paper -> Download, codec: Codec)
    returns (r: Result<Outputs>)
    ensures TriageIndex(triageRows).Err? ==> r == Err(TriageIndex(triageRows).exc)
    ensures TriageIndex(triageRows).Ok? ==>
      var tm := TriageIndex(triageRows).value;
      var run := PhaseRun(cands, tm, existingSummaries, existingBackend, includeBorderline, maxAccepted,
                          force, monthOut, dumpsSorted, summarize, download);
      (run.Err? ==> r == Err(run.exc)) &&
      (run.Ok? ==>
        var sorted := SortedSummaries(run.value.summaries);
        var rows := BackendRows(SortBy(cands, PublishedKey, false), tm, run.value, codec);
        (sorted.Err? ==> r == Err(sorted.exc)) &&
        (sorted.Ok? && rows.Err? ==> r == Err(rows.exc)) &&
        (sorted.Ok? && rows.Ok? ==> r == Ok(Outputs(sorted.value, rows.value))) &&
        (r.Ok? ==> multiset(r.value.summaries) == multiset(Values(run.value.summaries))))
    ensures r.Ok? ==> SortedBy(r.value.summaries, SiteRows.SummaryKey, false)
    ensures r.Ok? ==> |r.value.backendRows| == |cands|
    ensures r.Ok? ==> SortedBy(r.value.backendRows, SiteRows.BackendKey, false)
    ensures r.Ok? ==> forall i :: 0 <= i < |cands| ==> Keys(r.value.backendRows[i]) == BackendKeys
  {
    var index := TriageIndex(triageRows);
    if index.Err? {
      return Err(index.exc);
    }
    var tm := index.value;
    var chosen := BatchSelection(cands, tm, includeBorderline, maxAccepted);
    var summaries: seq<(string, Json)> := [];
    if !force {
      var loaded := SummaryMapOf(existingSummaries);
      if loaded.Err? {
        return Err(loaded.exc);
      }
      summaries := loaded.value;
    }
    var pdfs := PdfMapOf(existingBackend);
    if pdfs.Err? {
      return Err(pdfs.exc);
    }
    var dls := Downloads(chosen, download);
    var ctx := Context(tm, force, monthOut, dumpsSorted, summarize);
    var run := SummaryLoop(chosen, dls, Maps(summaries, pdfs.value), ctx);
    if run.Err? {
      return Err(run.exc);
    }
    var sorted := SortedSummaries(run.value.summaries);
    if sorted.Err? {
      return Err(sorted.exc);
    }
    var papers := SortBy(cands, PublishedKey, false);
    var rows := BackendRowsLoop(papers, tm, run.value, codec);
    if rows.Err? {
      return Err(rows.exc);
    }
    BackendRowsSorted(papers, tm, run.value, codec);
    r := Ok(Outputs(sorted.value, rows.value));
  }
}
