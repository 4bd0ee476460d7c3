/** `run_month` of the one-month pipeline, from the fetched candidates to the sorted triage
    rows and summaries: each candidate gets its cached triage row or a fresh verdict (a
    fallback reject row when triage raises), the summary set is chosen from the triage index,
    each chosen paper gets its cached summary or a fresh one from the best text available, and
    both outputs come out sorted. Fetching, the triage and summary calls and the PDF step are
    parameters; the cache is the SQLite database, a pair of maps keyed by id. */
module Pipeline {
  import opened Base
  import opened Strings
  import opened JsonValue
  import opened Ordering
  import opened Records
  import opened Selection
  import Pdf
  import BatchSummary
  import SiteRows

  /** The digest database: the triage table and the summary table, each keyed by id. */
  class Db {
    var triage: map<string, Json>
    var summaries: map<string, Json>

    constructor (triage0: map<string, Json>, summaries0: map<string, Json>)
      ensures triage == triage0 && summaries == summaries0
    {
      triage := triage0;
      summaries := summaries0;
    }

    /** `upsert_triage`: the row replaces whatever was stored under its own id; a row whose id
        cannot be read raises and changes nothing. */
    method UpsertTriage(row: Json) returns (e: Option<Exc>)
      modifies this
      ensures RowKey(row).Ok? ==> e.None? && triage == old(triage)[RowKey(row).value := row]
      ensures RowKey(row).Err? ==> e == Some(RowKey(row).exc) && triage == old(triage)
      ensures summaries == old(summaries)
    {
      var k := RowKey(row);
      if k.Err? {
        return Some(k.exc);
      }
      triage := triage[k.value := row];
      e := None;
    }

    /** `upsert_summary`, the same for the summary table. */
    method UpsertSummary(summary: Json) returns (e: Option<Exc>)
      modifies this
      ensures RowKey(summary).Ok? ==> e.None? && summaries == old(summaries)[RowKey(summary).value := summary]
      ensures RowKey(summary).Err? ==> e == Some(RowKey(summary).exc) && summaries == old(summaries)
      ensures triage == old(triage)
    {
      var k := RowKey(summary);
      if k.Err? {
        return Some(k.exc);
      }
      summaries := summaries[k.value := summary];
      e := None;
    }
  }

  /** `None if force else db.get_…(aid)`, with None as Null. */
  function CachedRow(table: map<string, Json>, aid: string, force: bool): Json {
    if force || aid !in table then Null else table[aid]
  }

  // ---------------------------------------------------------------------------------------
  // Triage

  /** The fields of the fallback row between its id and its reasons. */
  const FallbackFlags: seq<(string, Json)> :=
    [("is_eeg_related", Bool(false)), ("is_foundation_model_related", Bool(false)), ("borderline", Bool(false)),
     ("paper_type", Str("other")), ("confidence", Float(0.0))]

  /** The fields of the fallback row after its reasons. */
  const FallbackTail: seq<(string, Json)> := [("suggested_digest_tags", Arr([])), ("decision", Str("reject"))]

  /** The reject row recorded when triage raised, naming the exception. */
  function TriageFallback(aid: string, name: string): (r: Json)
    ensures RowKey(r) == Ok(aid)
    ensures Get(r, "decision") == Some(Str("reject")) && Get(r, "confidence") == Some(Float(0.0))
    ensures Get(r, "reasons") == Some(StrList(["triage_exception:" + name]))
  {
    var fields := [("arxiv_id_base", Str(aid))] + FallbackFlags + [("reasons", StrList(["triage_exception:" + name]))]
                  + FallbackTail;
    LookupAt(fields, 5, "confidence");
    LookupAt(fields, 6, "reasons");
    LookupAt(fields, 8, "decision");
    Obj(fields)
  }

  /** The rows written so far and the triage table. */
  datatype TriageState = TriageState(rows: seq<Json>, table: map<string, Json>)

  /** The fallback row appended and upserted. */
  function WithFallback(st: TriageState, aid: string, name: string): TriageState {
    var row := TriageFallback(aid, name);
    TriageState(st.rows + [row], st.table[aid := row])
  }

  /** One candidate of the triage loop. The row is the cached one when truthy, else the
      verdict; it is appended and upserted. An exception the `except Exception` clause catches
      (from triage, or from upserting a row without an id, which was already appended) adds
      the fallback row; any other exception ends the run. */
  function TriageTurn(st: TriageState, p: Paper, verdict: Result<Json>, force: bool): Result<TriageState> {
    var cached := CachedRow(st.table, p.idBase, force);
    var result := if Truthy(cached) then Ok(cached) else verdict;
    match result
    case Err(e) => if e.fatal then Err(e) else Ok(WithFallback(st, p.idBase, e.name))
    case Ok(row) =>
      match RowKey(row)
      case Ok(k) => Ok(TriageState(st.rows + [row], st.table[k := row]))
      case Err(e) => Ok(WithFallback(TriageState(st.rows + [row], st.table), p.idBase, e.name))
  }

  /** Every row in the table carries its id. */
  predicate AllKeyed(table: map<string, Json>) {
    forall k :: k in table ==> Keyed(table[k])
  }

  /** What one candidate does: only an uncaught exception from triage fails the turn; otherwise
      one or two rows are appended, the last of them carrying its id, the table stays keyed,
      and two rows are appended only when the result had no id and the fallback followed it. */
  lemma TriageTurnEffect(st: TriageState, p: Paper, verdict: Result<Json>, force: bool)
    ensures var cached := CachedRow(st.table, p.idBase, force);
      var r := TriageTurn(st, p, verdict, force);
      (r.Err? <==> !Truthy(cached) && verdict.Err? && verdict.exc.fatal) &&
      (r.Ok? ==>
        var added := |r.value.rows| - |st.rows|;
        (added == 1 || added == 2) && r.value.rows[..|st.rows|] == st.rows &&
        RowKey(r.value.rows[|r.value.rows| - 1]).Ok? &&
        (AllKeyed(st.table) ==> AllKeyed(r.value.table)) &&
        (added == 2 ==> RowKey(r.value.rows[|st.rows|]).Err?))
  {
    var r := TriageTurn(st, p, verdict, force);
    if r.Ok? {
      assert r.value.rows[..|st.rows|] == st.rows;
    }
  }

  /** A candidate whose triage raised an exception `except Exception` catches, with no cached
      row to use, gets exactly the fallback row, recorded under its id. */
  lemma TriageExceptionFallback(st: TriageState, p: Paper, verdict: Result<Json>, force: bool)
    requires !Truthy(CachedRow(st.table, p.idBase, force))
    requires verdict.Err? && CaughtByExceptClause(verdict.exc)
    ensures TriageTurn(st, p, verdict, force) == Ok(WithFallback(st, p.idBase, verdict.exc.name))
    ensures var row := TriageFallback(p.idBase, verdict.exc.name);
      Get(row, "decision") == Some(Str("reject")) && Get(row, "confidence") == Some(Float(0.0))
  {
  }

  /** A truthy cached row is used as it is, unless the run is forced; triage is not consulted. */
  lemma CachedTriageReused(st: TriageState, p: Paper, verdict: Result<Json>, force: bool)
    requires !force && p.idBase in st.table && Truthy(st.table[p.idBase]) && RowKey(st.table[p.idBase]).Ok?
    ensures TriageTurn(st, p, verdict, force).Ok?
    ensures TriageTurn(st, p, verdict, force).value.rows == st.rows + [st.table[p.idBase]]
  {
  }

  lemma TriageTurnFatal(st: TriageState, p: Paper, verdict: Result<Json>, force: bool)
    requires !Truthy(CachedRow(st.table, p.idBase, force)) && verdict.Err? && verdict.exc.fatal
    ensures TriageTurn(st, p, verdict, force) == Err(verdict.exc)
  {
  }

  lemma TriageTurnCaught(st: TriageState, p: Paper, verdict: Result<Json>, force: bool)
    requires !Truthy(CachedRow(st.table, p.idBase, force)) && verdict.Err? && !verdict.exc.fatal
    ensures TriageTurn(st, p, verdict, force) == Ok(WithFallback(st, p.idBase, verdict.exc.name))
  {
  }

  lemma TriageTurnRow(st: TriageState, p: Paper, verdict: Result<Json>, force: bool)
    requires var cached := CachedRow(st.table, p.idBase, force);
      Truthy(cached) || verdict.Ok?
    ensures var cached := CachedRow(st.table, p.idBase, force);
      var row := if Truthy(cached) then cached else verdict.value;
      var kept := TriageState(st.rows + [row], st.table);
      TriageTurn(st, p, verdict, force) ==
        Ok(if Keyed(row) then kept.(table := st.table[RowKey(row).value := row])
           else WithFallback(kept, p.idBase, RowKey(row).exc.name))
  {
  }

  /** The triage loop over the first `n` candidates, from an empty row list and the table as
      the run found it; `verdicts[i]` is what `triage_paper` returns or raises for candidate i.
      The loop stops at the first turn that fails. */
  function TriageLoop(cands: seq<Paper>, verdicts: seq<Result<Json>>, force: bool, table: map<string, Json>, n: nat)
    : Result<TriageState>
  {
    if n == 0 then Ok(TriageState([], table))
    else
      var st :- TriageLoop(cands, verdicts, force, table, n - 1);
      if n - 1 < |cands| && n - 1 < |verdicts| then TriageTurn(st, cands[n - 1], verdicts[n - 1], force) else Ok(st)
  }

  /** Once a candidate's turn has raised, the later candidates change nothing. */
  lemma {:induction false} TriageLoopStopped(cands: seq<Paper>, verdicts: seq<Result<Json>>, force: bool,
                                             table: map<string, Json>, n: nat, k: nat)
    requires k <= n && TriageLoop(cands, verdicts, force, table, k).Err?
    ensures TriageLoop(cands, verdicts, force, table, n) == TriageLoop(cands, verdicts, force, table, k)
    decreases n
  {
    if k < n {
      TriageLoopStopped(cands, verdicts, force, table, n - 1, k);
    }
  }

  lemma TriageLoopSnoc(cands: seq<Paper>, verdicts: seq<Result<Json>>, force: bool, table: map<string, Json>, i: nat)
    requires i < |cands| == |verdicts| && TriageLoop(cands, verdicts, force, table, i).Ok?
    ensures TriageLoop(cands, verdicts, force, table, i + 1) ==
            TriageTurn(TriageLoop(cands, verdicts, force, table, i).value, cands[i], verdicts[i], force)
  {
  }

  /** A loop that got through `n` candidates got through the first `n - 1`. */
  lemma TriageLoopOkPrefix(cands: seq<Paper>, verdicts: seq<Result<Json>>, force: bool, table: map<string, Json>, n: nat)
    requires 0 < n && TriageLoop(cands, verdicts, force, table, n).Ok?
    ensures TriageLoop(cands, verdicts, force, table, n - 1).Ok?
  {
  }

  /** A verdict that, when it is a row, carries its id. */
  predicate KeyedVerdict(v: Result<Json>) {
    v.Ok? ==> Keyed(v.value)
  }

  /** Every row carries its id. */
  predicate RowsKeyed(rows: seq<Json>) {
    forall j :: 0 <= j < |rows| ==> Keyed(rows[j])
  }

  lemma RowsKeyedAppend(rows: seq<Json>, row: Json)
    requires RowsKeyed(rows) && Keyed(row)
    ensures RowsKeyed(rows + [row])
  {
    forall j | 0 <= j < |rows + [row]|
      ensures Keyed((rows + [row])[j])
    {
      if j < |rows| {
        assert (rows + [row])[j] == rows[j];
      }
    }
  }

  /** With a keyed table and a keyed verdict, a turn appends exactly one row, which carries its
      id, and the table stays keyed. */
  lemma TriageTurnKeyed(st: TriageState, p: Paper, verdict: Result<Json>, force: bool)
    requires AllKeyed(st.table) && KeyedVerdict(verdict) && TriageTurn(st, p, verdict, force).Ok?
    ensures var r := TriageTurn(st, p, verdict, force).value;
      |r.rows| == |st.rows| + 1 && r.rows[..|st.rows|] == st.rows && Keyed(r.rows[|st.rows|]) &&
      (RowsKeyed(st.rows) ==> RowsKeyed(r.rows)) && AllKeyed(r.table)
  {
    var cached := CachedRow(st.table, p.idBase, force);
    var row;
    if Truthy(cached) || verdict.Ok? {
      TriageTurnRow(st, p, verdict, force);
      row := if Truthy(cached) then cached else verdict.value;
      assert Keyed(row);
    } else {
      TriageTurnCaught(st, p, verdict, force);
      row := TriageFallback(p.idBase, verdict.exc.name);
    }
    assert TriageTurn(st, p, verdict, force).value.rows == st.rows + [row];
    assert (st.rows + [row])[..|st.rows|] == st.rows;
    if RowsKeyed(st.rows) {
      RowsKeyedAppend(st.rows, row);
    }
  }

  /** One step of `TriageRowsCount`: a candidate adds one or two rows. */
  lemma TriageLoopCountStep(cands: seq<Paper>, verdicts: seq<Result<Json>>, force: bool,
                            table: map<string, Json>, n: nat)
    requires 0 < n <= |cands| == |verdicts| && TriageLoop(cands, verdicts, force, table, n).Ok?
    ensures TriageLoop(cands, verdicts, force, table, n - 1).Ok?
    ensures var prev := TriageLoop(cands, verdicts, force, table, n - 1).value;
      var next := TriageLoop(cands, verdicts, force, table, n).value;
      |prev.rows| + 1 <= |next.rows| <= |prev.rows| + 2
  {
    TriageLoopOkPrefix(cands, verdicts, force, table, n);
    TriageLoopSnoc(cands, verdicts, force, table, n - 1);
    TriageTurnEffect(TriageLoop(cands, verdicts, force, table, n - 1).value, cands[n - 1], verdicts[n - 1], force);
  }

  /** Every candidate contributes one or two rows. */
  lemma {:induction false} TriageRowsCount(cands: seq<Paper>, verdicts: seq<Result<Json>>, force: bool,
                                           table: map<string, Json>, n: nat)
    requires n <= |cands| == |verdicts|
    requires TriageLoop(cands, verdicts, force, table, n).Ok?
    ensures var rows := TriageLoop(cands, verdicts, force, table, n).value.rows;
      n <= |rows| <= 2 * n
    decreases n
  {
    if n > 0 {
      TriageLoopOkPrefix(cands, verdicts, force, table, n);
      TriageRowsCount(cands, verdicts, force, table, n - 1);
      TriageLoopCountStep(cands, verdicts, force, table, n);
    }
  }

  /** A state in which every row and every table entry carries its id. */
  predicate KeyedState(st: TriageState) {
    AllKeyed(st.table) && RowsKeyed(st.rows)
  }

  /** One step of `TriageRowsKeyed`: a keyed verdict keeps the state keyed and adds one row. */
  lemma TriageLoopKeyedStep(cands: seq<Paper>, verdicts: seq<Result<Json>>, force: bool,
                            table: map<string, Json>, n: nat)
    requires 0 < n <= |cands| == |verdicts| && KeyedVerdict(verdicts[n - 1])
    requires TriageLoop(cands, verdicts, force, table, n - 1).Ok? && TriageLoop(cands, verdicts, force, table, n).Ok?
    requires KeyedState(TriageLoop(cands, verdicts, force, table, n - 1).value)
    ensures var prev := TriageLoop(cands, verdicts, force, table, n - 1).value;
      var next := TriageLoop(cands, verdicts, force, table, n).value;
      |next.rows| == |prev.rows| + 1 && KeyedState(next)
  {
    TriageLoopSnoc(cands, verdicts, force, table, n - 1);
    TriageTurnKeyed(TriageLoop(cands, verdicts, force, table, n - 1).value, cands[n - 1], verdicts[n - 1], force);
  }

  /** When the table starts keyed and every verdict carries its id, every candidate contributes
      exactly one row, every row carries its id, and the table stays keyed. */
  lemma {:induction false} TriageRowsKeyed(cands: seq<Paper>, verdicts: seq<Result<Json>>, force: bool,
                                           table: map<string, Json>, n: nat)
    requires n <= |cands| == |verdicts|
    requires TriageLoop(cands, verdicts, force, table, n).Ok?
    requires AllKeyed(table) && forall i :: 0 <= i < |verdicts| ==> KeyedVerdict(verdicts[i])
    ensures var st := TriageLoop(cands, verdicts, force, table, n).value;
      |st.rows| == n && KeyedState(st)
    decreases n
  {
    if n > 0 {
      TriageLoopOkPrefix(cands, verdicts, force, table, n);
      TriageRowsKeyed(cands, verdicts, force, table, n - 1);
      TriageLoopKeyedStep(cands, verdicts, force, table, n);
    }
  }

  /** Every candidate contributes one or two rows, and exactly one when the table starts keyed
      and every verdict carries its id; every row then carries its id. */
  lemma TriageRowsPerCandidate(cands: seq<Paper>, verdicts: seq<Result<Json>>, force: bool,
                               table: map<string, Json>, n: nat)
    requires n <= |cands| == |verdicts|
    requires TriageLoop(cands, verdicts, force, table, n).Ok?
    ensures var rows := TriageLoop(cands, verdicts, force, table, n).value.rows;
      n <= |rows| <= 2 * n
    ensures AllKeyed(table) && (forall i :: 0 <= i < |verdicts| ==> KeyedVerdict(verdicts[i])) ==>
      var st := TriageLoop(cands, verdicts, force, table, n).value;
      |st.rows| == n && KeyedState(st)
  {
    TriageRowsCount(cands, verdicts, force, table, n);
    if AllKeyed(table) && (forall i :: 0 <= i < |verdicts| ==> KeyedVerdict(verdicts[i])) {
      TriageRowsKeyed(cands, verdicts, force, table, n);
    }
  }

  /** The loop fails only with an exception triage raised for a candidate that had no cached
      row to use, and only one `except Exception` lets through. */
  lemma {:induction false} TriageLoopFails(cands: seq<Paper>, verdicts: seq<Result<Json>>, force: bool,
                                           table: map<string, Json>, n: nat)
    requires n <= |cands| == |verdicts|
    requires TriageLoop(cands, verdicts, force, table, n).Err?
    ensures exists i :: (0 <= i < n && verdicts[i] == Err(TriageLoop(cands, verdicts, force, table, n).exc) &&
      !CaughtByExceptClause(verdicts[i].exc))
    decreases n
  {
    var prev := TriageLoop(cands, verdicts, force, table, n - 1);
    if prev.Err? {
      assert TriageLoop(cands, verdicts, force, table, n) == prev;
      TriageLoopFails(cands, verdicts, force, table, n - 1);
    } else {
      TriageLoopSnoc(cands, verdicts, force, table, n - 1);
      var st := prev.value;
      TriageTurnEffect(st, cands[n - 1], verdicts[n - 1], force);
      TriageTurnFatal(st, cands[n - 1], verdicts[n - 1], force);
      assert verdicts[n - 1] == Err(TriageLoop(cands, verdicts, force, table, n).exc);
    }
  }

  /** The sort key `x["arxiv_id_base"]` of a triage row. */
  function IdKey(row: Json): Key {
    match RowKey(row)
    case Ok(k) => [AStr(k)]
    case Err(_) => []
  }

  /** The first row whose id cannot be read. */
  function FirstUnkeyed(rows: seq<Json>): (r: Option<Exc>)
    ensures r.None? <==> forall i :: 0 <= i < |rows| ==> Keyed(rows[i])
  {
    if |rows| == 0 then None
    else if !Keyed(rows[0]) then Some(RowKey(rows[0]).exc)
    else
      assert forall i :: 1 <= i < |rows| ==> rows[1..][i - 1] == rows[i];
      FirstUnkeyed(rows[1..])
  }

  /** `sorted(triage_rows, key=lambda x: x["arxiv_id_base"])`: the rows by id, or the exception
      the first row without an id raises. */
  function SortTriageRows(rows: seq<Json>): (r: Result<seq<Json>>)
    ensures r.Ok? <==> forall i :: 0 <= i < |rows| ==> Keyed(rows[i])
    ensures r.Ok? ==> multiset(r.value) == multiset(rows) && SortedBy(r.value, IdKey, false)
  {
    match FirstUnkeyed(rows)
    case Some(e) => Err(e)
    case None => Ok(SortBy(rows, IdKey, false))
  }

  // ---------------------------------------------------------------------------------------
  // Summary input

  /** What the summariser is given besides the paper and its triage row. */
  datatype SummaryInput = SummaryInput(textWindow: string, usedFulltext: bool, notes: string)

  /** The settings of the summary stage: the force flag, whether PDFs are skipped, the head and
      tail lengths of the text window (each may be unset), sorted-key `json.dumps`, and the
      summariser. */
  datatype Settings = Settings(
    force: bool,
    noPdf: bool,
    head: Option<int>,
    tail: Option<int>,
    dumpsSorted: Json -> string,
    summarize: (Paper, Json, SummaryInput) -> Result<Json>)

  /** The text handed to the summariser: the abstract unless the PDF step yields non-blank text,
      which is then cut to its window. The window of an unset head or tail cannot be computed
      (`None + None` raises TypeError) and the abstract stays. */
  function InputFor(p: Paper, dl: Download, s: Settings): (r: SummaryInput)
    ensures s.noPdf || p.links.pdf == "" ==> r == SummaryInput(p.summary, false, "abstract_only")
    ensures r.usedFulltext <==>
      !s.noPdf && p.links.pdf != "" && dl.Downloaded? && !IsBlank(dl.text) && s.head.Some? && s.tail.Some?
    ensures r.usedFulltext ==>
      r.textWindow == Pdf.BoundedWindow(dl.text, s.head.value, s.tail.value) && r.notes == s.dumpsSorted(dl.meta)
    ensures !r.usedFulltext ==> r.textWindow == p.summary
    ensures !s.noPdf && p.links.pdf != "" && dl.DownloadFailed? ==> r.notes == "pdf_failed:" + dl.name
    ensures !s.noPdf && p.links.pdf != "" && dl.Downloaded? && IsBlank(dl.text) ==>
      r.notes == "pdf_empty_text:" + Display(dl.meta)
    ensures !s.noPdf && p.links.pdf != "" && dl.Downloaded? && !IsBlank(dl.text) && !r.usedFulltext ==>
      r.notes == "pdf_failed:TypeError"
  {
    var abstractOnly := SummaryInput(p.summary, false, "abstract_only");
    if s.noPdf || p.links.pdf == "" then abstractOnly
    else match dl
      case DownloadFailed(name) => abstractOnly.(notes := "pdf_failed:" + name)
      case Downloaded(text, meta) =>
        if IsBlank(text) then abstractOnly.(notes := "pdf_empty_text:" + Display(meta))
        else if s.head.None? || s.tail.None? then abstractOnly.(notes := "pdf_failed:TypeError")
        else SummaryInput(Pdf.BoundedWindow(text, s.head.value, s.tail.value), true, s.dumpsSorted(meta))
  }

  /** A full-text window never exceeds the head, the marker and the tail. */
  lemma InputWindowBounded(p: Paper, dl: Download, s: Settings)
    requires InputFor(p, dl, s).usedFulltext && s.head.value >= 0 && s.tail.value >= 0
    ensures |InputFor(p, dl, s).textWindow| <= s.head.value + |Pdf.Marker| + s.tail.value
  {
  }

  // ---------------------------------------------------------------------------------------
  // Summaries

  /** The summaries so far and the summary table. */
  datatype SummaryState = SummaryState(summaries: seq<Json>, table: map<string, Json>)

  /** One chosen paper of the summary loop. A truthy cached summary is appended as it is.
      Otherwise the summariser gets the paper, its triage row and its input; the summary is
      appended, then upserted. An exception `except Exception` catches (a missing triage row,
      the summariser's, or the upsert's after the append) passes the paper over; any other
      ends the run. */
  function SummaryTurn(st: SummaryState, p: Paper, dl: Download, tm: map<string, Json>, s: Settings)
    : Result<SummaryState>
  {
    var cached := CachedRow(st.table, p.idBase, s.force);
    if Truthy(cached) then Ok(SummaryState(st.summaries + [cached], st.table))
    else if p.idBase !in tm then Ok(st)
    else match s.summarize(p, tm[p.idBase], InputFor(p, dl, s))
      case Err(e) => if e.fatal then Err(e) else Ok(st)
      case Ok(summary) =>
        match RowKey(summary)
        case Ok(k) => Ok(SummaryState(st.summaries + [summary], st.table[k := summary]))
        case Err(_) => Ok(SummaryState(st.summaries + [summary], st.table))
  }

  /** What one paper does: only an uncaught exception from the summariser fails the turn;
      otherwise at most one summary is appended, a cached one when there was one, and the
      summaries before it are kept. */
  lemma SummaryTurnEffect(st: SummaryState, p: Paper, dl: Download, tm: map<string, Json>, s: Settings)
    ensures var cached := CachedRow(st.table, p.idBase, s.force);
      var r := SummaryTurn(st, p, dl, tm, s);
      (r.Err? <==> (!Truthy(cached) && p.idBase in tm &&
        s.summarize(p, tm[p.idBase], InputFor(p, dl, s)).Err? &&
        !CaughtByExceptClause(s.summarize(p, tm[p.idBase], InputFor(p, dl, s)).exc))) &&
      (r.Err? ==> r.exc == s.summarize(p, tm[p.idBase], InputFor(p, dl, s)).exc) &&
      (r.Ok? ==>
        (r.value.summaries == st.summaries || |r.value.summaries| == |st.summaries| + 1) &&
        r.value.summaries[..|st.summaries|] == st.summaries &&
        (Truthy(cached) ==> r.value.summaries == st.summaries + [cached]))
  {
    var cached := CachedRow(st.table, p.idBase, s.force);
    if Truthy(cached) {
      assert (st.summaries + [cached])[..|st.summaries|] == st.summaries;
    } else if p.idBase in tm {
      var out := s.summarize(p, tm[p.idBase], InputFor(p, dl, s));
      if out.Ok? {
        assert (st.summaries + [out.value])[..|st.summaries|] == st.summaries;
      }
    }
  }

  /** The summary loop over the first `n` chosen papers; `download` stands for the PDF step.
      The loop stops at the first turn that fails. */
  function SummaryLoop(papers: seq<Paper>, download: Paper -> Download, tm: map<string, Json>, s: Settings,
                       table: map<string, Json>, n: nat): Result<SummaryState>
  {
    if n == 0 then Ok(SummaryState([], table))
    else
      var st :- SummaryLoop(papers, download, tm, s, table, n - 1);
      if n - 1 < |papers| then SummaryTurn(st, papers[n - 1], download(papers[n - 1]), tm, s) else Ok(st)
  }

  /** Once a paper's turn has raised, the later papers change nothing. */
  lemma {:induction false} SummaryLoopStopped(papers: seq<Paper>, download: Paper -> Download, tm: map<string, Json>,
                                              s: Settings, table: map<string, Json>, n: nat, k: nat)
    requires k <= n && SummaryLoop(papers, download, tm, s, table, k).Err?
    ensures SummaryLoop(papers, download, tm, s, table, n) == SummaryLoop(papers, download, tm, s, table, k)
    decreases n
  {
    if k < n {
      SummaryLoopStopped(papers, download, tm, s, table, n - 1, k);
    }
  }

  lemma SummaryLoopSnoc(papers: seq<Paper>, download: Paper -> Download, tm: map<string, Json>, s: Settings,
                        table: map<string, Json>, i: nat)
    requires i < |papers| && SummaryLoop(papers, download, tm, s, table, i).Ok?
    ensures SummaryLoop(papers, download, tm, s, table, i + 1) ==
            SummaryTurn(SummaryLoop(papers, download, tm, s, table, i).value, papers[i], download(papers[i]), tm, s)
  {
  }

  /** The loop yields at most one summary per paper. */
  lemma {:induction false} SummaryCountBound(papers: seq<Paper>, download: Paper -> Download, tm: map<string, Json>,
                                             s: Settings, table: map<string, Json>, n: nat)
    requires n <= |papers| && SummaryLoop(papers, download, tm, s, table, n).Ok?
    ensures |SummaryLoop(papers, download, tm, s, table, n).value.summaries| <= n
    decreases n
  {
    if n > 0 {
      var prev := SummaryLoop(papers, download, tm, s, table, n - 1);
      assert prev.Ok?;
      SummaryCountBound(papers, download, tm, s, table, n - 1);
      SummaryTurnEffect(prev.value, papers[n - 1], download(papers[n - 1]), tm, s);
    }
  }

  /** The loop fails only with an exception the summariser raised for one of the papers and
      `except Exception` lets through. */
  lemma {:induction false} SummaryLoopFails(papers: seq<Paper>, download: Paper -> Download, tm: map<string, Json>,
                                            s: Settings, table: map<string, Json>, n: nat)
    requires n <= |papers| && SummaryLoop(papers, download, tm, s, table, n).Err?
    ensures exists i :: (0 <= i < n && papers[i].idBase in tm &&
      var out := s.summarize(papers[i], tm[papers[i].idBase], InputFor(papers[i], download(papers[i]), s));
      out.Err? && out.exc == SummaryLoop(papers, download, tm, s, table, n).exc && !CaughtByExceptClause(out.exc))
    decreases n
  {
    var prev := SummaryLoop(papers, download, tm, s, table, n - 1);
    if prev.Err? {
      SummaryLoopFails(papers, download, tm, s, table, n - 1);
    } else {
      SummaryTurnEffect(prev.value, papers[n - 1], download(papers[n - 1]), tm, s);
    }
  }

  // ---------------------------------------------------------------------------------------
  // The month

  /** The outputs of `run_month`: `triage.jsonl` and `papers.jsonl`. */
  datatype MonthOutputs = MonthOutputs(triageRows: seq<Json>, summaries: seq<Json>)

  /** One candidate of the triage loop: its row is appended to `rows` and upserted, followed by
      the fallback row when the candidate's turn calls for one. */
  method TriageCandidate(rows: seq<Json>, p: Paper, verdict: Result<Json>, db: Db, force: bool)
    returns (r: Result<seq<Json>>)
    modifies db
    ensures var turn := TriageTurn(TriageState(rows, old(db.triage)), p, verdict, force);
      (turn.Err? ==> r == Err(turn.exc)) &&
      (turn.Ok? ==> r == Ok(turn.value.rows) && db.triage == turn.value.table)
    ensures db.summaries == old(db.summaries)
  {
    ghost var before := TriageState(rows, db.triage);
    var cached := CachedRow(db.triage, p.idBase, force);
    var result := if Truthy(cached) then Ok(cached) else verdict;
    if result.Err? {
      if result.exc.fatal {
        TriageTurnFatal(before, p, verdict, force);
        return Err(result.exc);
      }
      TriageTurnCaught(before, p, verdict, force);
      var fallback := TriageFallback(p.idBase, result.exc.name);
      var ignored := db.UpsertTriage(fallback);
      r := Ok(rows + [fallback]);
    } else {
      TriageTurnRow(before, p, verdict, force);
      var appended := rows + [result.value];
      var failure := db.UpsertTriage(result.value);
      if failure.Some? {
        var fallback := TriageFallback(p.idBase, failure.value.name);
        appended := appended + [fallback];
        var ignored := db.UpsertTriage(fallback);
      }
      r := Ok(appended);
    }
  }

  /** Stage 2 of `run_month`, the triage loop, upserting into the database as it goes. */
  method TriageStage(cands: seq<Paper>, verdicts: seq<Result<Json>>, db: Db, force: bool)
    returns (r: Result<seq<Json>>)
    requires |verdicts| == |cands|
    modifies db
    ensures var run := TriageLoop(cands, verdicts, force, old(db.triage), |cands|);
      (run.Err? ==> r == Err(run.exc)) &&
      (run.Ok? ==> r == Ok(run.value.rows) && db.triage == run.value.table)
    ensures db.summaries == old(db.summaries)
  {
    ghost var table0 := db.triage;
    var rows: seq<Json> := [];
    var i := 0;
    while i < |cands|
      invariant 0 <= i <= |cands|
      invariant TriageLoop(cands, verdicts, force, table0, i) == Ok(TriageState(rows, db.triage))
      invariant db.summaries == old(db.summaries)
    {
      TriageLoopSnoc(cands, verdicts, force, table0, i);
      var next := TriageCandidate(rows, cands[i], verdicts[i], db, force);
      if next.Err? {
        TriageLoopStopped(cands, verdicts, force, table0, |cands|, i + 1);
        return next;
      }
      rows := next.value;
      i := i + 1;
    }
    r := Ok(rows);
  }

  /** One chosen paper of the summary loop: its summary, cached or fresh, is appended to
      `summaries`, and a fresh one is upserted. */
  method SummaryPaper(summaries: seq<Json>, p: Paper, dl: Download, tm: map<string, Json>, s: Settings, db: Db)
    returns (r: Result<seq<Json>>)
    modifies db
    ensures var turn := SummaryTurn(SummaryState(summaries, old(db.summaries)), p, dl, tm, s);
      (turn.Err? ==> r == Err(turn.exc)) &&
      (turn.Ok? ==> r == Ok(turn.value.summaries) && db.summaries == turn.value.table)
    ensures db.triage == old(db.triage)
  {
    var cached := CachedRow(db.summaries, p.idBase, s.force);
    if Truthy(cached) {
      return Ok(summaries + [cached]);
    }
    if p.idBase !in tm {
      return Ok(summaries);
    }
    var summary := s.summarize(p, tm[p.idBase], InputFor(p, dl, s));
    if summary.Err? {
      return if summary.exc.fatal then Err(summary.exc) else Ok(summaries);
    }
    var ignored := db.UpsertSummary(summary.value);
    r := Ok(summaries + [summary.value]);
  }

  /** Stage 3's loop over the chosen papers, upserting into the database as it goes. */
  method SummaryStage(chosen: seq<Paper>, download: Paper -> Download, tm: map<string, Json>, s: Settings, db: Db)
    returns (r: Result<seq<Json>>)
    modifies db
    ensures var run := SummaryLoop(chosen, download, tm, s, old(db.summaries), |chosen|);
      (run.Err? ==> r == Err(run.exc)) &&
      (run.Ok? ==> r == Ok(run.value.summaries) && db.summaries == run.value.table)
    ensures db.triage == old(db.triage)
  {
    ghost var table0 := db.summaries;
    var summaries: seq<Json> := [];
    var j := 0;
    while j < |chosen|
      invariant 0 <= j <= |chosen|
      invariant SummaryLoop(chosen, download, tm, s, table0, j) == Ok(SummaryState(summaries, db.summaries))
      invariant db.triage == old(db.triage)
    {
      SummaryLoopSnoc(chosen, download, tm, s, table0, j);
      var next := SummaryPaper(summaries, chosen[j], download(chosen[j]), tm, s, db);
      if next.Err? {
        SummaryLoopStopped(chosen, download, tm, s, table0, |chosen|, j + 1);
        return next;
      }
      summaries := next.value;
      j := j + 1;
    }
    r := Ok(summaries);
  }

  /** A month that ran to the end: its outputs and the two database tables it leaves. */
  datatype MonthResult = MonthResult(out: MonthOutputs, triage: map<string, Json>, summaries: map<string, Json>)

  /** The month as one computation from the tables it starts with: the triage loop, the sorted
      triage rows, the triage index and summary set, the summary loop and the sorted summaries;
      the first stage that raises ends it with that exception. */
  function MonthRun(cands: seq<Paper>, verdicts: seq<Result<Json>>, triage0: map<string, Json>,
                    summaries0: map<string, Json>, includeBorderline: bool, maxBorderline: Option<int>,
                    maxAccepted: Option<int>, s: Settings, download: Paper -> Download): (r: Result<MonthResult>)
    requires |verdicts| == |cands|
    ensures TriageLoop(cands, verdicts, s.force, triage0, |cands|).Err? ==>
      r == Err(TriageLoop(cands, verdicts, s.force, triage0, |cands|).exc)
  {
    var st :- TriageLoop(cands, verdicts, s.force, triage0, |cands|);
    var sortedRows :- SortTriageRows(st.rows);
    var tm :- TriageIndex(st.rows);
    var chosen := PipelineSelection(cands, tm, includeBorderline, maxBorderline, maxAccepted);
    var run :- SummaryLoop(chosen, download, tm, s, summaries0, |chosen|);
    var sortedSummaries :- BatchSummary.SortedByDate(run.summaries);
    Ok(MonthResult(MonthOutputs(sortedRows, sortedSummaries), st.table, run.table))
  }

  /** A month that ran to the end wrote every triage row the loop produced, sorted by id, one
      or two per candidate, and left the triage table the loop built. */
  lemma MonthTriage(cands: seq<Paper>, verdicts: seq<Result<Json>>, triage0: map<string, Json>,
                    summaries0: map<string, Json>, includeBorderline: bool, maxBorderline: Option<int>,
                    maxAccepted: Option<int>, s: Settings, download: Paper -> Download)
    requires |verdicts| == |cands|
    requires MonthRun(cands, verdicts, triage0, summaries0, includeBorderline, maxBorderline, maxAccepted, s, download).Ok?
    ensures TriageLoop(cands, verdicts, s.force, triage0, |cands|).Ok?
    ensures var st := TriageLoop(cands, verdicts, s.force, triage0, |cands|).value;
      var m := MonthRun(cands, verdicts, triage0, summaries0, includeBorderline, maxBorderline, maxAccepted, s, download).value;
      multiset(m.out.triageRows) == multiset(st.rows) && m.triage == st.table &&
      SortedBy(m.out.triageRows, IdKey, false) && |cands| <= |m.out.triageRows| <= 2 * |cands|
  {
    var m := MonthRun(cands, verdicts, triage0, summaries0, includeBorderline, maxBorderline, maxAccepted, s, download);
    var st := TriageLoop(cands, verdicts, s.force, triage0, |cands|).value;
    TriageRowsCount(cands, verdicts, s.force, triage0, |cands|);
    var sorted := SortTriageRows(st.rows);
    var tm := TriageIndex(st.rows);
    var chosen := PipelineSelection(cands, tm.value, includeBorderline, maxBorderline, maxAccepted);
    var run := SummaryLoop(chosen, download, tm.value, s, summaries0, |chosen|);
    var ss := BatchSummary.SortedByDate(run.value.summaries);
    assert sorted.Ok? && tm.Ok? && run.Ok? && ss.Ok?;
    assert m == Ok(MonthResult(MonthOutputs(sorted.value, ss.value), st.table, run.value.table));
  }

  /** A month that ran to the end wrote, sorted by (published_date, id), the summaries the
      summary loop produced over the papers chosen from the triage index, at most one per
      candidate, and left the summary table that loop built. */
  lemma MonthSummaries(cands: seq<Paper>, verdicts: seq<Result<Json>>, triage0: map<string, Json>,
                       summaries0: map<string, Json>, includeBorderline: bool, maxBorderline: Option<int>,
                       maxAccepted: Option<int>, s: Settings, download: Paper -> Download)
    requires |verdicts| == |cands|
    requires MonthRun(cands, verdicts, triage0, summaries0, includeBorderline, maxBorderline, maxAccepted, s, download).Ok?
    ensures TriageLoop(cands, verdicts, s.force, triage0, |cands|).Ok?
    ensures TriageIndex(TriageLoop(cands, verdicts, s.force, triage0, |cands|).value.rows).Ok?
    ensures var tm := TriageIndex(TriageLoop(cands, verdicts, s.force, triage0, |cands|).value.rows).value;
      var chosen := PipelineSelection(cands, tm, includeBorderline, maxBorderline, maxAccepted);
      SummaryLoop(chosen, download, tm, s, summaries0, |chosen|).Ok? &&
      var run := SummaryLoop(chosen, download, tm, s, summaries0, |chosen|).value;
      var m := MonthRun(cands, verdicts, triage0, summaries0, includeBorderline, maxBorderline, maxAccepted, s, download).value;
      multiset(m.out.summaries) == multiset(run.summaries) && m.summaries == run.table &&
      SortedBy(m.out.summaries, SiteRows.SummaryKey, false) && |m.out.summaries| <= |cands|
  {
    var m := MonthRun(cands, verdicts, triage0, summaries0, includeBorderline, maxBorderline, maxAccepted, s, download);
    var st := TriageLoop(cands, verdicts, s.force, triage0, |cands|).value;
    var sorted := SortTriageRows(st.rows);
    var tm := TriageIndex(st.rows);
    var chosen := PipelineSelection(cands, tm.value, includeBorderline, maxBorderline, maxAccepted);
    var run := SummaryLoop(chosen, download, tm.value, s, summaries0, |chosen|);
    var ss := BatchSummary.SortedByDate(run.value.summaries);
    assert sorted.Ok? && tm.Ok? && run.Ok? && ss.Ok?;
    assert m == Ok(MonthResult(MonthOutputs(sorted.value, ss.value), st.table, run.value.table));
    SelectionBound(cands, tm.value, includeBorderline, maxBorderline, maxAccepted);
    SummaryCountBound(chosen, download, tm.value, s, summaries0, |chosen|);
  }

  /** `run_month` from the fetched candidates on: the triage loop, the sorted triage rows, the
      summary set, the summary loop and the sorted summaries, with the database updated in
      place. `verdicts[i]` is what triage returns or raises for candidate i. */
  method RunMonth(cands: seq<Paper>, verdicts: seq<Result<Json>>, db: Db, includeBorderline: bool,
                  maxBorderline: Option<int>, maxAccepted: Option<int>, s: Settings,
                  download: Paper -> Download)
    returns (r: Result<MonthOutputs>)
    requires |verdicts| == |cands|
    modifies db
    ensures var m := MonthRun(cands, verdicts, old(db.triage), old(db.summaries), includeBorderline,
                              maxBorderline, maxAccepted, s, download);
      (m.Err? ==> r == Err(m.exc)) &&
      (m.Ok? ==> r == Ok(m.value.out) && db.triage == m.value.triage && db.summaries == m.value.summaries)
    ensures TriageLoop(cands, verdicts, s.force, old(db.triage), |cands|).Ok? ==>
      db.triage == TriageLoop(cands, verdicts, s.force, old(db.triage), |cands|).value.table
  {
    ghost var m := MonthRun(cands, verdicts, db.triage, db.summaries, includeBorderline,
                            maxBorderline, maxAccepted, s, download);
    ghost var table0, stable0 := db.triage, db.summaries;
    var rows := TriageStage(cands, verdicts, db, s.force);
    if rows.Err? {
      return Err(rows.exc);
    }
    ghost var st := TriageLoop(cands, verdicts, s.force, table0, |cands|).value;
    assert rows.value == st.rows && db.triage == st.table && db.summaries == stable0;
    var sortedRows := SortTriageRows(rows.value);
    if sortedRows.Err? {
      assert m == Err(sortedRows.exc);
      return Err(sortedRows.exc);
    }
    var index := TriageIndex(rows.value);
    if index.Err? {
      assert m == Err(index.exc);
      return Err(index.exc);
    }
    var tm := index.value;
    var chosen := PipelineSelection(cands, tm, includeBorderline, maxBorderline, maxAccepted);
    var summaries := SummaryStage(chosen, download, tm, s, db);
    ghost var run := SummaryLoop(chosen, download, tm, s, stable0, |chosen|);
    if summaries.Err? {
      assert m == Err(run.exc);
      return Err(summaries.exc);
    }
    var sortedSummaries := BatchSummary.SortedByDate(summaries.value);
    if sortedSummaries.Err? {
      assert m == Err(sortedSummaries.exc);
      return Err(sortedSummaries.exc);
    }
    assert m == Ok(MonthResult(MonthOutputs(sortedRows.value, sortedSummaries.value), st.table, run.value.table));
    r := Ok(MonthOutputs(sortedRows.value, sortedSummaries.value));
  }

  /** The summary set is never larger than the candidate list. */
  lemma SelectionBound(cands: seq<Paper>, tm: map<string, Json>, includeBorderline: bool,
                       maxBorderline: Option<int>, maxAccepted: Option<int>)
    ensures |PipelineSelection(cands, tm, includeBorderline, maxBorderline, maxAccepted)| <= |cands|
  {
    var accepted := Filter(cands, DecidedAs(tm, "accept"));
    var borderline := Filter(cands, DecidedAs(tm, "borderline"));
    FilterDisjoint(cands, DecidedAs(tm, "accept"), DecidedAs(tm, "borderline"));
    var pool := accepted + (if includeBorderline then Capped(borderline, maxBorderline) else []);
    SummaryOrderSorted(pool, maxAccepted);
  }
}
