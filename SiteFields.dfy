/** The defensive readers the static site applies to loaded JSON (`_site_text`, `_site_list`,
    `_safe_*`), and the reason a paper's summary is reported missing. */
module SiteFields {
  import opened Base
  import opened Strings
  import opened JsonValue

  const AbsPrefix: string := "https://arxiv.org/abs/"

  /** `str(d.get(key, "")).strip()` on a dict. */
  function Text(d: Json, key: string): (r: string)
    ensures Stripped(r)
  {
    Strip(Display(GetOr(d, key, Str(""))))
  }

  /** `_site_text`: the stripped string under `key` when the content is a dict and the value
      is a non-blank string, else the default. */
  function SiteText(content: Json, key: string, default: string): (r: string)
    ensures r == default || (r != [] && Stripped(r))
    ensures content.Obj? && GetOr(content, key, Null).Str? && !IsBlank(GetOr(content, key, Null).s) ==>
      r == Strip(GetOr(content, key, Null).s)
    ensures !(content.Obj? && GetOr(content, key, Null).Str? && !IsBlank(GetOr(content, key, Null).s)) ==>
      r == default
  {
    if content.Obj? then
      var value := GetOr(content, key, Null);
      if value.Str? && !IsBlank(value.s) then Strip(value.s) else default
    else default
  }

  /** A site text already in the content, stripped and non-blank, is used as it is. */
  lemma SiteTextGiven(content: Json, key: string, text: string, default: string)
    requires content.Obj? && Get(content, key) == Some(Str(text))
    requires text != [] && Stripped(text)
    ensures SiteText(content, key, default) == text
  {
  }

  /** `str(item).strip()` */
  function Cleaned(item: Json): (t: string)
    ensures Stripped(t)
  {
    Strip(Display(item))
  }

  /** Every string of the list is non-empty and stripped. */
  predicate AllClean(ss: seq<string>) {
    forall i :: 0 <= i < |ss| ==> ss[i] != [] && Stripped(ss[i])
  }

  lemma CleanPrepend(t: string, rest: seq<string>)
    requires t != [] && Stripped(t) && AllClean(rest)
    ensures AllClean([t] + rest)
  {
    assert forall i :: 1 <= i < |[t] + rest| ==> ([t] + rest)[i] == rest[i - 1];
  }

  /** `[str(item).strip() for item in items if str(item).strip()]` */
  function CleanStrings(items: seq<Json>): (r: seq<string>)
    ensures |r| <= |items|
    ensures AllClean(r)
  {
    if |items| == 0 then []
    else
      var t := Cleaned(items[0]);
      var rest := CleanStrings(items[1..]);
      if t == [] then rest else CleanPrepend(t, rest); [t] + rest
  }

  /** Clean strings come through cleaning unchanged. */
  lemma {:induction false} CleanStringsKeeps(ss: seq<string>)
    requires forall i :: 0 <= i < |ss| ==> ss[i] != [] && Stripped(ss[i])
    ensures CleanStrings(StrList(ss).items) == ss
    decreases |ss|
  {
    if |ss| > 0 {
      assert StrList(ss).items[1..] == StrList(ss[1..]).items;
      CleanStringsKeeps(ss[1..]);
      assert ss == [ss[0]] + ss[1..];
    }
  }

  /** Blank items, whatever their number and place, are dropped. */
  lemma {:induction false} CleanStringsDropsBlank(items: seq<Json>, i: int)
    requires 0 <= i <= |items| && items[i..] != [] && items[i].Str? && IsBlank(items[i].s)
    ensures CleanStrings(items[..i] + items[i + 1..]) == CleanStrings(items)
    decreases i
  {
    if i == 0 {
      assert items[..i] + items[i + 1..] == items[1..];
    } else {
      assert (items[..i] + items[i + 1..])[1..] == items[1..][..i - 1] + items[1..][i..];
      assert (items[..i] + items[i + 1..])[0] == items[0];
      CleanStringsDropsBlank(items[1..], i - 1);
    }
  }

  /** `_site_list`: the cleaned list under `key`, or the default when it is not a list or
      cleans to nothing. */
  function SiteList(content: Json, key: string, default: seq<string>): (r: seq<string>)
    ensures r == default || (|r| > 0 && forall i :: 0 <= i < |r| ==> r[i] != [] && Stripped(r[i]))
    ensures !content.Obj? || !GetOr(content, key, Null).Arr? ==> r == default
    ensures content.Obj? && GetOr(content, key, Null).Arr? ==>
      var out := CleanStrings(GetOr(content, key, Null).items);
      r == if |out| > 0 then out else default
  {
    if content.Obj? then
      var value := GetOr(content, key, Null);
      if value.Arr? then
        var out := CleanStrings(value.items);
        if |out| > 0 then out else default
      else default
    else default
  }

  /** `_safe_str_list`: the cleaned items of a list, and nothing for any other value. */
  function SafeStrList(value: Json): (r: seq<string>)
    ensures !value.Arr? ==> r == []
    ensures value.Arr? ==> r == CleanStrings(value.items) && |r| <= |value.items|
    ensures forall i :: 0 <= i < |r| ==> r[i] != [] && Stripped(r[i])
  {
    if value.Arr? then CleanStrings(value.items) else []
  }

  /** `_safe_float`: `float(value)`, or 0.0 where `float` raises. */
  function SafeFloat(value: Json, codec: Codec): (r: real)
    ensures value.Int? ==> r == value.i as real
    ensures value.Float? ==> r == value.r
    ensures value.Bool? ==> r == if value.b then 1.0 else 0.0
    ensures value.Str? ==> r == codec.parseFloat(value.s).GetOr(0.0)
    ensures value.Null? || value.Arr? || value.Obj? ==> r == 0.0
  {
    ToFloat(value, codec).GetOr(0.0)
  }

  /** `_safe_int`: `int(value)`, or the default where `int` raises. */
  function SafeInt(value: Json, default: int, codec: Codec): (r: int)
    ensures value.Int? ==> r == value.i
    ensures value.Float? && 0.0 <= value.r ==> r as real <= value.r < r as real + 1.0
    ensures value.Float? && value.r < 0.0 ==> r as real - 1.0 < value.r <= r as real
    ensures value.Bool? ==> r == if value.b then 1 else 0
    ensures value.Str? ==> r == codec.parseInt(value.s).GetOr(default)
    ensures value.Null? || value.Arr? || value.Obj? ==> r == default
  {
    ToInt(value, codec).GetOr(default)
  }

  /** The links of a page row: `abs` always, `pdf` only when one is given. */
  datatype SiteLinks = SiteLinks(abs: string, pdf: Option<string>)

  function AsDict(value: Json): Json {
    if value.Obj? then value else Obj([])
  }

  /** `_safe_links` */
  function SafeLinks(value: Json, id: string): (r: SiteLinks)
    ensures r.abs != []
    ensures Text(AsDict(value), "abs") != [] ==> r.abs == Text(AsDict(value), "abs")
    ensures Text(AsDict(value), "abs") == [] ==> r.abs == AbsPrefix + id
    ensures r.pdf.Some? <==> Text(AsDict(value), "pdf") != []
    ensures r.pdf.Some? ==> r.pdf.value == Text(AsDict(value), "pdf") && Stripped(r.pdf.value)
  {
    var d := AsDict(value);
    var absUrl := Text(d, "abs");
    var pdfUrl := Text(d, "pdf");
    SiteLinks(if absUrl != [] then absUrl else AbsPrefix + id, if pdfUrl != [] then Some(pdfUrl) else None)
  }

  /** Links that are not a dict give the arXiv abstract page and no pdf. */
  lemma SafeLinksDefault(value: Json, id: string)
    requires !value.Obj?
    ensures SafeLinks(value, id) == SiteLinks(AbsPrefix + id, None)
  {
    assert GetOr(Obj([]), "abs", Str("")) == Str("");
    assert GetOr(Obj([]), "pdf", Str("")) == Str("");
  }

  /** The triage part of a page row. */
  datatype TriageView = TriageView(decision: string, confidence: real, reasons: seq<string>)

  /** The reasons of a triage record: `str()` of each item of a list, or of the one value
      given otherwise. */
  function ReasonTexts(given: Json): (r: seq<string>)
    ensures given.Arr? ==> |r| == |given.items| && forall i :: 0 <= i < |r| ==> r[i] == Display(given.items[i])
    ensures !given.Arr? ==> r == [Display(given)]
  {
    if given.Arr? then seq(|given.items|, i requires 0 <= i < |given.items| => Display(given.items[i]))
    else [Display(given)]
  }

  /** `_safe_triage` */
  function SafeTriage(value: Json, codec: Codec): (r: TriageView)
    ensures !value.Obj? ==> r == TriageView("reject", 0.0, [])
    ensures Get(value, "decision") == None ==> r.decision == "reject"
    ensures Get(value, "decision").Some? ==> r.decision == Display(Get(value, "decision").value)
    ensures Get(value, "confidence") == None ==> r.confidence == 0.0
    ensures Get(value, "confidence").Some? ==> r.confidence == SafeFloat(Get(value, "confidence").value, codec)
    ensures r.reasons == ReasonTexts(GetOr(AsDict(value), "reasons", Arr([])))
  {
    var d := AsDict(value);
    TriageView(Display(GetOr(d, "decision", Str("reject"))),
               SafeFloat(GetOr(d, "confidence", Float(0.0)), codec),
               ReasonTexts(GetOr(d, "reasons", Arr([]))))
  }

  /** `_summary_failure_reason` as written: the stripped `str()` of the extraction error, so
      an `"error": null` (what a successful extraction records) reads as "None". */
  function SummaryFailureReasonAsWritten(row: Json): (r: string)
    ensures r != []
  {
    var pdf := GetOr(row, "pdf", Null);
    if pdf.Obj? then
      var meta := GetOr(pdf, "extract_meta", Null);
      if meta.Obj? then
        var err := Strip(Display(GetOr(meta, "error", Str(""))));
        if err != [] then err else "summary_unavailable"
      else "summary_unavailable"
    else "summary_unavailable"
  }

  /** The row whose extraction succeeded and recorded `"error": null`. */
  function CleanExtractionRow(): Json {
    Obj([("pdf", Obj([("extract_meta", Obj([("error", Null)]))]))])
  }

  /** A paper whose PDF text was extracted without error, but which has no summary, is
      reported as failed with the reason "None". */
  lemma NullErrorReadsNone()
    ensures SummaryFailureReasonAsWritten(CleanExtractionRow()) == "None"
  {
    var meta := Obj([("error", Null)]);
    var pdf := Obj([("extract_meta", meta)]);
    assert GetOr(CleanExtractionRow(), "pdf", Null) == pdf;
    assert GetOr(pdf, "extract_meta", Null) == meta;
    assert GetOr(meta, "error", Str("")) == Null;
    assert Stripped("None");
  }

  /** Read as intended, the same row reports that no summary is available. */
  lemma NullErrorUnavailable()
    ensures SummaryFailureReason(CleanExtractionRow()) == "summary_unavailable"
  {
    var meta := Obj([("error", Null)]);
    var pdf := Obj([("extract_meta", meta)]);
    assert GetOr(CleanExtractionRow(), "pdf", Null) == pdf;
    assert GetOr(pdf, "extract_meta", Null) == meta;
    assert GetOr(meta, "error", Null) == Null;
  }

  /** The extraction error recorded for a row, when there is one: a JSON null counts as none. */
  function ExtractError(row: Json): Option<Json> {
    var pdf := GetOr(row, "pdf", Null);
    if !pdf.Obj? then None
    else
      var meta := GetOr(pdf, "extract_meta", Null);
      if !meta.Obj? then None
      else
        var err := GetOr(meta, "error", Null);
        if err.Null? then None else Some(err)
  }

  /** `_summary_failure_reason` as intended: the recorded extraction error, and
      "summary_unavailable" when there is none. */
  function SummaryFailureReason(row: Json): (r: string)
    ensures r != []
    ensures ExtractError(row).None? ==> r == "summary_unavailable"
    ensures ExtractError(row).Some? && !IsBlank(Display(ExtractError(row).value)) ==>
      r == Strip(Display(ExtractError(row).value))
    ensures ExtractError(row).None? || ExtractError(row).value != Null
  {
    var err := ExtractError(row);
    if err.None? then "summary_unavailable"
    else
      var text := Strip(Display(err.value));
      if text != [] then text else "summary_unavailable"
  }

  /** The two readings differ only on a null error. */
  lemma FailureReasonsAgree(row: Json)
    requires var pdf := GetOr(row, "pdf", Null);
      !(pdf.Obj? && GetOr(pdf, "extract_meta", Null).Obj? &&
        Get(GetOr(pdf, "extract_meta", Null), "error") == Some(Null))
    ensures SummaryFailureReason(row) == SummaryFailureReasonAsWritten(row)
  {
    var pdf := GetOr(row, "pdf", Null);
    if pdf.Obj? {
      var meta := GetOr(pdf, "extract_meta", Null);
      if meta.Obj? {
        var given := Get(meta, "error");
        if given.None? {
          assert Display(GetOr(meta, "error", Str(""))) == "";
          assert ExtractError(row) == None;
        } else {
          assert ExtractError(row) == Some(given.value);
        }
      }
    }
  }

  const RetryPrefix: string := "summary_retry_failed_reason="
  const RetryMark: string := "summary_retry_failed"
  const JsonErrorMark: string := "summary_json_error"

  /** A token opening with the retry prefix contains the `=` that ends it. */
  lemma RetryTokenHasEquals(s: string)
    requires StartsWith(s, RetryPrefix)
    ensures '=' in s
  {
    var n := |RetryPrefix|;
    assert RetryPrefix[n - 1] == '=';
    assert s[..n][n - 1] == s[n - 1];
  }

  /** The reason a notes token gives for a failed retry: the text after the first `=` of a
      `summary_retry_failed_reason=` token, stripped, when it is not empty. */
  function TokenReason(token: string): (r: Option<string>)
    ensures r.Some? ==> r.value != [] && Stripped(r.value)
    ensures r.Some? ==> StartsWith(Strip(token), RetryPrefix)
  {
    var cleaned := Strip(token);
    if StartsWith(cleaned, RetryPrefix) then
      RetryTokenHasEquals(cleaned);
      var reason := Strip(AfterFirst(cleaned, '='));
      if reason != [] then Some(reason) else None
    else None
  }

  /** The reason each token gives. */
  function Reasons(tokens: seq<string>): (r: seq<Option<string>>)
    ensures |r| == |tokens|
    ensures forall i :: 0 <= i < |r| ==> r[i] == TokenReason(tokens[i])
  {
    seq(|tokens|, i requires 0 <= i < |tokens| => TokenReason(tokens[i]))
  }

  /** The first reason given. */
  function FirstGiven(reasons: seq<Option<string>>): (r: Option<string>)
    ensures r.Some? ==> r in reasons
    ensures r.None? <==> forall i :: 0 <= i < |reasons| ==> reasons[i].None?
  {
    if |reasons| == 0 then None
    else if reasons[0].Some? then reasons[0]
    else FirstGiven(reasons[1..])
  }

  /** The reason given by the first token that gives one. */
  function RetryReason(tokens: seq<string>): (r: Option<string>)
    ensures r.Some? ==> r.value != [] && Stripped(r.value)
  {
    var r := FirstGiven(Reasons(tokens));
    assert r.Some? ==> exists i :: 0 <= i < |tokens| && Reasons(tokens)[i] == r;
    r
  }

  /** The first token that gives a reason decides. */
  lemma {:induction false} FirstGivenFirst(reasons: seq<Option<string>>, i: int)
    requires 0 <= i < |reasons| && reasons[i].Some?
    requires forall j :: 0 <= j < i ==> reasons[j].None?
    ensures FirstGiven(reasons) == reasons[i]
    decreases i
  {
    if i > 0 {
      FirstGivenFirst(reasons[1..], i - 1);
    }
  }

  lemma RetryReasonFirst(tokens: seq<string>, i: int)
    requires 0 <= i < |tokens| && TokenReason(tokens[i]).Some?
    requires forall j :: 0 <= j < i ==> TokenReason(tokens[j]).None?
    ensures RetryReason(tokens) == TokenReason(tokens[i])
  {
    FirstGivenFirst(Reasons(tokens), i);
  }

  /** The stripped notes of a summary, `str(summary.get("notes", "")).strip()`. */
  function Notes(summary: Json): string {
    Text(summary, "notes")
  }

  /** `_placeholder_failure_reason`, first rule that applies: a retry reason in the notes,
      then the retry marker, then the JSON-error marker, then the row's extraction error. */
  function PlaceholderReasonSpec(summary: Json, row: Json): (r: string)
    ensures r != []
  {
    NotesReason(Notes(summary), SummaryFailureReason(row))
  }

  /** The reason the notes give, or `otherwise`. */
  function NotesReason(notes: string, otherwise: string): (r: string)
    requires otherwise != []
    ensures r != []
  {
    var retry := RetryReason(Split(notes, ';'));
    if retry.Some? then retry.value
    else if Contains(notes, RetryMark) then RetryMark
    else if Contains(notes, JsonErrorMark) then JsonErrorMark
    else otherwise
  }

  /** Text that starts with the retry prefix mentions the retry marker. */
  lemma PrefixMentions(cleaned: string)
    requires StartsWith(cleaned, RetryPrefix)
    ensures Contains(cleaned, RetryMark)
  {
    assert RetryPrefix == RetryMark + "_reason=";
    assert StartsWith(cleaned, RetryMark);
  }

  /** What the stripped text contains, the text contains. */
  lemma StripContains(s: string, p: string)
    requires Contains(Strip(s), p)
    ensures Contains(s, p)
  {
    var a, b := StripSlice(s);
    ContainsSlice(s, a, b, p);
  }

  /** A token that gives a retry reason mentions the retry marker. */
  lemma TokenReasonMentions(token: string)
    requires TokenReason(token).Some?
    ensures Contains(token, RetryMark)
  {
    PrefixMentions(Strip(token));
    StripContains(token, RetryMark);
  }

  /** Notes that never mention the retry marker give no retry reason. */
  lemma NoRetryMention(notes: string)
    requires !Contains(notes, RetryMark)
    ensures RetryReason(Split(notes, ';')) == None
  {
    var tokens := Split(notes, ';');
    forall k | 0 <= k < |tokens|
      ensures TokenReason(tokens[k]).None?
    {
      if TokenReason(tokens[k]).Some? {
        TokenReasonMentions(tokens[k]);
        var a, b := SplitSlice(notes, ';', k);
        ContainsSlice(notes, a, b, RetryMark);
      }
    }
  }

  /** The fallback summary's notes end in "summary_json_error"; without a retry marker
      that is the reason given. */
  lemma JsonErrorReason(summary: Json, row: Json)
    requires !Contains(Notes(summary), RetryMark) && Contains(Notes(summary), JsonErrorMark)
    ensures PlaceholderReasonSpec(summary, row) == JsonErrorMark
  {
    NoRetryMention(Notes(summary));
  }

  /** Without either marker the row's extraction error decides. */
  lemma UnmarkedNotesUseRow(summary: Json, row: Json)
    requires !Contains(Notes(summary), RetryMark) && !Contains(Notes(summary), JsonErrorMark)
    ensures PlaceholderReasonSpec(summary, row) == SummaryFailureReason(row)
  {
    NoRetryMention(Notes(summary));
  }

  /** The retry reason of the `;`-separated tokens of the notes, scanning them in a loop. */
  method ScanRetryReason(tokens: seq<string>) returns (r: Option<string>)
    ensures r == RetryReason(tokens)
  {
    ghost var reasons := Reasons(tokens);
    var i := 0;
    while i < |tokens|
      invariant 0 <= i <= |tokens|
      invariant FirstGiven(reasons) == FirstGiven(reasons[i..])
    {
      assert reasons[i..][1..] == reasons[i + 1..];
      var reason := TokenReason(tokens[i]);
      if reason.Some? {
        return reason;
      }
      i := i + 1;
    }
    return None;
  }

  /** The reason the notes give, or `otherwise`. */
  method ReasonFromNotes(notes: string, otherwise: string) returns (r: string)
    requires otherwise != []
    ensures r == NotesReason(notes, otherwise)
  {
    var retry := ScanRetryReason(Split(notes, ';'));
    if retry.Some? {
      return retry.value;
    }
    if Contains(notes, RetryMark) {
      return RetryMark;
    }
    if Contains(notes, JsonErrorMark) {
      return JsonErrorMark;
    }
    return otherwise;
  }

  /** `_placeholder_failure_reason` */
  method PlaceholderFailureReason(summary: Json, row: Json) returns (r: string)
    ensures r == PlaceholderReasonSpec(summary, row)
  {
    r := ReasonFromNotes(Notes(summary), SummaryFailureReason(row));
  }
}
