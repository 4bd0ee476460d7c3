# EEG-FM Digest: a Dafny model of the reliability layer

EEG-FM Digest is a monthly pipeline. It fetches candidate arXiv papers and has a language model triage each one. It summarises the accepted papers and renders the results into a static site. This project models the deterministic core of that pipeline in Dafny and proves what it promises:

- **Validated generation** (`Generation`, `Triage`, `Summarize`). Triage and summarisation render a prompt, call the model, parse, normalise and validate. On failure they make exactly one repair call, then fall back to a fixed record.
  - The model is a class `Generation.Llm` that holds a queue of outputs and counts its calls.
  - JSON parsing and schema validation are abstract functions.
  - The three-way decision policy is exact.
- **Provider clients.**
  - `OpenAiCompat` covers the OpenAI-compatible chat client: the token estimate, reading text out of `choices`, status classification, the at-most-two-request schema fallback and the endpoint. It talks to HTTP through a scripted transport class.
  - `OpenRouter` covers the OpenRouter client of the batch runner.
- **Text and ordering.**
  - `Pdf`: `bounded_text`.
  - `Render`: the digest's stats, top picks and sections.
  - `SiteFields`, `SiteRows`, `SiteManifest`: the site's defensive field readers, failure reasons, paper rows, month payload and manifest entry.
  - `BatchMonths`, `BatchTriage`, `Selection`, `BatchSummary`: the batch runner's months, triage phase, summary set and summary phase.
  - `Pipeline`: the one-month `run_month`.
- **Configuration strings.**
  - `Profile`: the `${NAME:default}` expander with the environment as a map, the required-field readers, the provider check, the `allowed_tags` filter and the profile-id check.
  - `Run`: `default_month`, with today's date as a parameter.

Shared modules:

- `Base`: options, Python exceptions and results. An exception is fatal when `except Exception` does not catch it, as with `RateLimitStop`.
- `JsonValue`: JSON values with Python's `dict.get`, truthiness, `str()`, `float()` and `int()`.
- `Strings`: Python string operations.
- `Ordering`: Python's tuple ordering and its stable `sorted`.
- `Records`: the candidate paper record.

Where the source loops and updates state, the model uses imperative Dafny:

- the fake model and the HTTP transport are classes;
- the database is the class `Pipeline.Db`;
- the loops are methods with invariants, each proved equal to a function that states the run turn by turn.

Properties that relate several steps are lemmas about those functions.

Behaviour the code does not have, although a reader might expect it:

- The final fallback is a fixed record per call site. It is not a value synthesised from the schema.
- On the success path of `summarize_paper`, only `used_fulltext` and `notes` are overwritten. Identity fields are copied from the paper only in the fallback.
- The one-month pipeline gives the summariser a head-and-tail window (`bounded_text`). There is no token-budget selection between full text and slices.
- Tags are not canonicalised or filtered in the summary path.
- The batch runner imports `slice_paper_text` from `pdf.py`, which does not define it. It also calls `summarize_paper` with keyword arguments (`raw_fulltext`, `fulltext_slices`, `max_input_tokens`) that the function in `summarize.py` does not take. The model therefore treats the batch runner's summariser as a parameter with the inputs the call site supplies.

## Model

| member | source | states |
|---|---|---|
| Strings.Strip | src/eegfm_digest/batch.py:389 | `s.strip()` has no whitespace at either end, is no longer than `s`, is empty exactly when `s` is all whitespace, and is `s` itself when `s` is already stripped |
| Strings.StripSlice | src/eegfm_digest/batch.py:389 | the stripped text is one contiguous slice of the original |
| Strings.SplitSlice | src/eegfm_digest/site.py:157 | every piece of `s.split(c)` is a slice of `s`, and the first piece starts at the beginning |
| Strings.JoinSplit | src/eegfm_digest/site.py:157 | joining the pieces of `s.split(c)` with `c` gives `s` back |
| Strings.ReplaceAbsent | src/eegfm_digest/triage.py:56 | `s.replace(p, r)` returns `s` unchanged when `p` does not occur in it |
| Strings.ReplaceConcat | src/eegfm_digest/triage.py:56 | a prefix in which no occurrence of `p` starts is copied, and the rest is replaced on its own |
| Strings.ReplaceFront | src/eegfm_digest/triage.py:56 | an occurrence at the front is replaced, and the scan resumes after it |
| Strings.PyPrefix | src/eegfm_digest/pdf.py:51 | `s[:n]` is a prefix of `s` of length min(n, len(s)) for n >= 0, and of length max(0, len(s) + n) for negative n |
| Strings.PySuffixFrom | src/eegfm_digest/pdf.py:51 | `s[k:]` is a suffix of `s` of length len(s) - min(k, len(s)) for k >= 0, and of length min(-k, len(s)) for negative k |
| Strings.Lower | src/eegfm_digest/batch.py:479-480 | `s.lower()` has the same length, each character lower-cased |
| Ordering.StrLeRefl | src/eegfm_digest/pipeline.py:73 | Python's `<=` on strings is reflexive |
| Ordering.StrLeTotal | src/eegfm_digest/pipeline.py:73 | any two strings are comparable |
| Ordering.StrLeAntisym | src/eegfm_digest/pipeline.py:73 | two strings each `<=` the other are equal |
| Ordering.StrLeTrans | src/eegfm_digest/pipeline.py:73 | `<=` on strings is transitive |
| Ordering.KeyLeRefl | src/eegfm_digest/pipeline.py:91 | Python's `<=` on key tuples is reflexive |
| Ordering.KeyLeTotal | src/eegfm_digest/pipeline.py:91 | any two key tuples are comparable |
| Ordering.KeyLeAntisym | src/eegfm_digest/pipeline.py:91 | two key tuples each `<=` the other are equal |
| Ordering.KeyLeTrans | src/eegfm_digest/pipeline.py:91 | `<=` on key tuples is transitive |
| Ordering.SortBy | src/eegfm_digest/pipeline.py:91 | `sorted(s, key=…, reverse=…)` is a permutation of `s` ordered by the key, ascending or descending |
| Ordering.InsertWithKey | src/eegfm_digest/pipeline.py:91 | one insertion step puts the new element before every element with its key, so among the elements with any one key it comes first |
| Ordering.SortByStable | src/eegfm_digest/pipeline.py:73 | `sorted` is stable, also with `reverse=True`: for every key, the elements with that key come out in their input order |
| JsonValue.LookupAt | src/eegfm_digest/batch.py:331 | `d.get(k)` gives the value of the first entry with key `k` |
| JsonValue.Store | src/eegfm_digest/batch.py:407 | after `d[k] = v`, `k` maps to `v` and every other key keeps its value |
| JsonValue.StoreKeys | src/eegfm_digest/batch.py:407 | `d[k] = v` keeps an existing key in its place and adds a new key last |
| JsonValue.FalsyValues | src/eegfm_digest/pipeline.py:53 | a value is falsy exactly when it is None, False, 0, 0.0, "", [] or {} |
| JsonValue.Display | src/eegfm_digest/batch.py:83 | `str(v)` of a string is the string itself, and of any other value a non-blank text |
| Triage.ValidateJson | src/eegfm_digest/triage.py:20-24 | no error exactly when the schema accepts the record; otherwise a SchemaValidationError that `except Exception` catches |
| Triage.Confidence | src/eegfm_digest/triage.py:28 | a record without `confidence` reads as 0.0 |
| Triage.ApplyDecisionPolicy | src/eegfm_digest/triage.py:27-37 | the three-way rule: both flags and confidence >= 0.6 give accept with borderline false; otherwise >= 0.35 gives borderline with borderline true; otherwise reject with `borderline` untouched; no other key changes; fails only when the record is not a dict or `float` raises |
| Triage.PolicyDecides | src/eegfm_digest/triage.py:29-36 | every record the policy returns holds one of the three decisions |
| Triage.MissingConfidenceRejects | src/eegfm_digest/triage.py:28-36 | a dict with no confidence is rejected |
| Triage.PolicyIdempotent | src/eegfm_digest/triage.py:27-37 | applying the policy twice equals applying it once |
| Triage.PolicyKeepsInputs | src/eegfm_digest/triage.py:27-37 | the policy leaves the flags and the confidence it reads as they were |
| Triage.AcceptStable | src/eegfm_digest/triage.py:29-31 | an accept record that meets the accept rule is returned unchanged |
| Triage.BorderlineStable | src/eegfm_digest/triage.py:32-34 | a borderline record that meets the borderline rule is returned unchanged |
| Triage.LowConfidenceRejects | src/eegfm_digest/triage.py:35-36 | below 0.35 the policy only sets `decision` to reject |
| Triage.RejectStable | src/eegfm_digest/triage.py:35-36 | a rejected record below 0.35 is returned unchanged |
| Triage.FallbackStable | src/eegfm_digest/triage.py:75-85 | the fallback record (reject, confidence 0.0, reasons triage_json_error, no tags, the paper's id) is a fixed point of the policy |
| Triage.TriageAttempt | src/eegfm_digest/triage.py:58-62 | an accepted attempt is a parsed reply after the policy, and the schema accepts it |
| Triage.TriagePaper | src/eegfm_digest/triage.py:40-85 | the method's result, the prompts sent and the call count are exactly those of the one-repair outcome on the next two queued replies; the queue itself is untouched |
| Triage.TriageSound | src/eegfm_digest/triage.py:57-85 | one or two calls; a returned record holds a decision, is a fixed point of the policy and is schema-valid or the fallback; an error is the first call's exception or a fatal one from the repair call |
| Triage.TriageRepairPath | src/eegfm_digest/triage.py:63-73 | an unreadable first reply followed by a valid repair returns the repaired record after exactly two calls |
| Generation.Llm.constructor | tests/test_schema_paths.py:9-11 | a fake model holds the given replies and has made no call |
| Generation.Llm.Upcoming | tests/test_schema_paths.py:13-16 | once the queue is used up the next call raises (an IndexError) |
| Generation.Llm.Generate | tests/test_schema_paths.py:13-16 | returns the next queued reply, records the prompt, advances the counter by one and leaves the queue as it is |
| Generation.BraceFree | src/eegfm_digest/triage.py:64-67 | text without `{` cannot hold the start of a placeholder |
| Generation.RepairPromptFill | src/eegfm_digest/triage.py:64-67 | filling a repair template that holds each placeholder once puts the schema JSON and then the bad output in their places, and a `{{BAD_OUTPUT}}` inside the schema text is not created by the first pass |
| Generation.SchemaPass | src/eegfm_digest/triage.py:65 | the first pass replaces `{{SCHEMA_JSON}}` by the schema text |
| Generation.OutputPass | src/eegfm_digest/triage.py:66 | the second pass replaces `{{BAD_OUTPUT}}` by the first raw output |
| Generation.TooLongAbsent | src/eegfm_digest/triage.py:64-67 | a pattern longer than the text does not occur in it |
| Generation.Protocol | src/eegfm_digest/triage.py:57-85 | the one-repair protocol: one or two prompts, the second exactly when the first reply fails to read and validate, and then built from the repair template; a valid first reply is returned without repair; a first-call exception propagates; an ordinary exception in the repair call gives the fallback; every result is a validated reply or the fallback |
| Generation.ValidatedGenerate | src/eegfm_digest/summarize.py:31-50 | the imperative protocol returns exactly the result of `Protocol` on the next two replies and sends exactly its prompts |
| Summarize.PayloadFields | src/eegfm_digest/summarize.py:21-29 | the prompt payload carries `published[:10]`, the text window verbatim as `fulltext`, and the triage record |
| Summarize.Stamp | src/eegfm_digest/summarize.py:34-35 | a dict reply gets `used_fulltext` and `notes` from the caller and keeps every other key; a non-dict raises |
| Summarize.SummaryAttempt | src/eegfm_digest/summarize.py:33-37 | an accepted attempt is a parsed reply after stamping, and the schema accepts it |
| Summarize.FallbackTags | src/eegfm_digest/summarize.py:71 | the first 15 suggested tags, or the three default tags when that slice is empty; a string is sliced as a string; any other value raises |
| Summarize.SummaryFallback | src/eegfm_digest/summarize.py:52-74 | the fallback record is built exactly when the triage is a dict whose tags can be sliced |
| Summarize.FallbackIdBase | src/eegfm_digest/summarize.py:53 | the fallback copies the paper's arxiv_id_base |
| Summarize.FallbackTitle | src/eegfm_digest/summarize.py:54 | the fallback copies the paper's title |
| Summarize.FallbackDate | src/eegfm_digest/summarize.py:55 | the fallback's published_date is the first 10 characters of `published` |
| Summarize.FallbackCategories | src/eegfm_digest/summarize.py:56 | the fallback copies the paper's categories |
| Summarize.FallbackPaperType | src/eegfm_digest/summarize.py:57 | the fallback's paper_type is the triage's, else "other" |
| Summarize.FallbackDigestTags | src/eegfm_digest/summarize.py:71 | the fallback's digest_tags are the fallback tag list |
| Summarize.FallbackUsedFulltext | src/eegfm_digest/summarize.py:72 | the fallback's used_fulltext is the caller's argument |
| Summarize.FallbackNotes | src/eegfm_digest/summarize.py:73 | the fallback's notes are the caller's notes followed by "; summary_json_error" |
| Summarize.SummarizePaper | src/eegfm_digest/summarize.py:10-74 | the method's result, prompts and call count are exactly those of the one-repair outcome on the next two queued replies |
| Summarize.SummaryStamped | src/eegfm_digest/summarize.py:31-74 | one or two calls; every returned record has the caller's used_fulltext; a non-fallback record has the caller's notes and is schema-valid; the fallback's notes end in "; summary_json_error" |
| Summarize.SummaryFallbackPath | tests/test_schema_paths.py:52-76 | two unreadable replies give the fallback after two calls, with the paper's id, the caller's used_fulltext and the marked notes |
| OpenAiCompat.Endpoint | src/eegfm_digest/llm_openai_compat.py:32 | the endpoint ends in "/chat/completions" after a stem that is the base URL with all its trailing slashes removed and no more |
| OpenAiCompat.CountTokens | src/eegfm_digest/llm_openai_compat.py:37-39 | at least 1, and the least count whose `count * max(1, chars_per_token)` covers the text's length |
| OpenAiCompat.CountTokensMonotone | src/eegfm_digest/llm_openai_compat.py:37-39 | a longer text never counts fewer tokens |
| OpenAiCompat.ItemPart | src/eegfm_digest/llm_openai_compat.py:53-60 | a content item yields at most one part, and a bare string yields itself |
| OpenAiCompat.TextParts | src/eegfm_digest/llm_openai_compat.py:52-60 | no more parts than items |
| OpenAiCompat.TextPartsErrSticky | src/eegfm_digest/llm_openai_compat.py:53-60 | once an item raises, the items after it change nothing |
| OpenAiCompat.TextPartsStrings | src/eegfm_digest/llm_openai_compat.py:54-56 | a list of bare strings yields exactly those strings |
| OpenAiCompat.OtherTypeIgnored | src/eegfm_digest/llm_openai_compat.py:57 | a dict item whose type is neither "text" nor absent adds nothing |
| OpenAiCompat.ExtractSpec | src/eegfm_digest/llm_openai_compat.py:41-62 | extracted text is always stripped; a payload that is not a dict raises |
| OpenAiCompat.ExtractNoChoices | src/eegfm_digest/llm_openai_compat.py:42-44 | missing, non-list or empty `choices` give "" |
| OpenAiCompat.ExtractStringContent | src/eegfm_digest/llm_openai_compat.py:48-50 | string content is returned stripped |
| OpenAiCompat.ExtractListContent | src/eegfm_digest/llm_openai_compat.py:51-61 | list content of strings is joined and then stripped |
| OpenAiCompat.ExtractText | src/eegfm_digest/llm_openai_compat.py:41-62 | the looping extraction returns exactly `ExtractSpec` |
| OpenAiCompat.Classify | src/eegfm_digest/llm_openai_compat.py:64-77 | 429 raises RateLimitError, status >= 500 raises RuntimeError, a transport failure propagates, and every other response is returned as it is |
| OpenAiCompat.FinishSpec | src/eegfm_digest/llm_openai_compat.py:109-113 | text is returned only for a 2xx response whose JSON yields non-empty extracted text, and it is stripped |
| OpenAiCompat.GenerateSpec | src/eegfm_digest/llm_openai_compat.py:79-113 | one or two requests; the first carries the schema when one is given; a second, plain request is sent exactly when the schema request was answered 400 or 422, so the request at lines 106-108 is never sent; the last answer decides the result; returned text is non-empty and stripped |
| OpenAiCompat.PlainBadRequestRaises | src/eegfm_digest/llm_openai_compat.py:105-109 | without a schema, a 400 answer raises HTTPStatusError after one request |
| OpenAiCompat.LoadApiKey | src/eegfm_digest/llm_openai_compat.py:116-123 | succeeds exactly when the stripped variable name is non-blank and names a non-blank value, and returns that value stripped |
| OpenAiCompat.LoadApiKeyPadded | src/eegfm_digest/llm_openai_compat.py:117 | whitespace around the variable name makes no difference |
| OpenAiCompat.Client.constructor | src/eegfm_digest/llm_openai_compat.py:28-32 | the client keeps its config, computes its endpoint and has sent nothing |
| OpenAiCompat.Client.Request | src/eegfm_digest/llm_openai_compat.py:64-77 | records the body sent and classifies the next answer |
| OpenAiCompat.Client.Generate | src/eegfm_digest/llm_openai_compat.py:79-113 | the method's result and the bodies it sends are exactly those of `GenerateSpec` on the next two answers |
| OpenAiCompat.Finish | src/eegfm_digest/llm_openai_compat.py:109-113 | the imperative check returns exactly `FinishSpec` |
| OpenRouter.CountTokens | src/eegfm_digest/batch.py:176-178 | at least 1, and otherwise the length divided by 4 rounded down |
| OpenRouter.CountTokensBelowCompat | src/eegfm_digest/batch.py:176-178 | the floor estimate is never above the ceiling estimate of the compatible client at 4 characters a token, and at most one below it |
| OpenRouter.CountTokensMonotone | src/eegfm_digest/batch.py:176-178 | a longer text never counts fewer tokens |
| OpenRouter.RequestBody | src/eegfm_digest/batch.py:201-209 | the body holds model, messages, temperature, max_tokens and reasoning, plus response_format exactly when a schema was given |
| OpenRouter.ItemPart | src/eegfm_digest/batch.py:191-197 | an item yields at most one part, and a bare string yields itself |
| OpenRouter.Parts | src/eegfm_digest/batch.py:189-197 | no more parts than items |
| OpenRouter.PartsOfStrings | src/eegfm_digest/batch.py:196-197 | a list of bare strings yields exactly those strings |
| OpenRouter.FirstMessage | src/eegfm_digest/batch.py:181-184 | falsy `choices` give no message; a message read is truthy or the empty dict |
| OpenRouter.ContentText | src/eegfm_digest/batch.py:185-199 | extracted text is stripped; a message that is not a dict raises |
| OpenRouter.ExtractSpec | src/eegfm_digest/batch.py:180-199 | extracted text is stripped; a non-dict payload raises; falsy `choices` give "" |
| OpenRouter.OneChoiceMessage | src/eegfm_digest/batch.py:183 | the first choice's message is read |
| OpenRouter.StringContentAgrees | src/eegfm_digest/batch.py:186-187 | string content is returned stripped, as the compatible client does |
| OpenRouter.ListContent | src/eegfm_digest/batch.py:188-198 | list content of strings is joined and then stripped |
| OpenRouter.TypedItemRead | src/eegfm_digest/batch.py:191-194 | unlike the compatible client, a dict item with any `type` contributes its truthy `text` |
| OpenRouter.ExtractText | src/eegfm_digest/batch.py:180-199 | the looping extraction returns exactly `ExtractSpec` |
| OpenRouter.RateLimitStop | src/eegfm_digest/batch.py:26-27 | RateLimitStop is a BaseException that no `except Exception` catches |
| OpenRouter.Finish | src/eegfm_digest/batch.py:219-227 | 402 and 429 raise RateLimitStop; a transport failure propagates; empty text from a 2xx raises; returned text comes from a 2xx and is non-empty and stripped |
| OpenRouter.FinishSucceeds | src/eegfm_digest/batch.py:219-227 | text is returned exactly for a 2xx answer whose JSON yields non-empty text |
| Pdf.MarkerLength | src/eegfm_digest/pdf.py:51 | the truncation marker is 21 characters long |
| Pdf.BoundedText | src/eegfm_digest/pdf.py:48-51 | as written: a text within head + tail comes back unchanged; a longer one starts with its first `head` characters followed by the marker; with tail > 0 it ends with the last `tail` characters and has length head + 21 + tail; with tail == 0 it ends with the whole text |
| Pdf.ZeroTailKeepsWholeText | src/eegfm_digest/pdf.py:51 | "abc" with head 1 and tail 0 becomes "a", the marker and "abc", longer than the input |
| Pdf.BoundedWindow | src/eegfm_digest/pdf.py:48-51 | as intended: unchanged within head + tail, never longer than head + 21 + tail, and starting with the first `head` characters |
| Pdf.BoundedWindowAgrees | src/eegfm_digest/pdf.py:48-51 | for any non-zero tail the intended window equals the window as written |
| Records.PublishedDate | src/eegfm_digest/summarize.py:24 | `published[:10]`: the first ten characters, or all of a shorter string |
| Records.PublishedKeyOrder | src/eegfm_digest/batch.py:330 | the key (published, id) orders by publication first and by id among equal publications |
| Render.TriageMap | src/eegfm_digest/render.py:23 | every triage row's id is a key, and every key is some row's id |
| Render.TriageMapLastWins | src/eegfm_digest/render.py:23 | for duplicate ids the last row wins |
| Render.UsefulPoints | src/eegfm_digest/render.py:14 | the count of useful key points never exceeds the number of key points |
| Render.Chosen | src/eegfm_digest/render.py:10-19 | the first min(5, n) summaries of the descending ranking, each one of the inputs |
| Render.Ids | src/eegfm_digest/render.py:19 | the ids of the summaries, position by position |
| Render.PickTopPicks | src/eegfm_digest/render.py:9-19 | min(5, n) ids, each the id of some input summary |
| Render.TopPicksOutrank | src/eegfm_digest/render.py:10-19 | a summary left out of the top picks ranks no higher than any pick |
| Render.FullTieLargerIdFirst | src/eegfm_digest/render.py:15-17 | between equal confidence and equal useful-point counts, the larger id ranks first |
| Render.UntriagedRanksZero | src/eegfm_digest/render.py:13 | a summary with no triage entry ranks with confidence 0.0 |
| Render.SameTypeOrder | src/eegfm_digest/render.py:25 | within one paper type the section order is by (published_date, id) |
| Render.Group | src/eegfm_digest/render.py:24-26 | no more section titles than summaries |
| Render.GroupContents | src/eegfm_digest/render.py:24-26 | each section lists, in order, the ids of exactly the summaries of its type |
| Render.GroupStep | src/eegfm_digest/render.py:26 | appending one summary extends only its own type's list, by its id |
| Render.GroupTitles | src/eegfm_digest/render.py:24-26 | the titles are the section keys, each once |
| Render.GroupHasType | src/eegfm_digest/render.py:26 | every summary's type has a section |
| Render.SectionsOf | src/eegfm_digest/render.py:36 | one section per title, holding that title's ids |
| Render.Ordered | src/eegfm_digest/render.py:25 | the summaries permuted into (paper_type, published_date, id) order |
| Render.Titles | src/eegfm_digest/render.py:36 | the section titles in ascending order, a permutation of the grouped titles |
| Render.TitlesGrouped | src/eegfm_digest/render.py:36 | every sorted title has a group |
| Render.SectionsAscending | src/eegfm_digest/render.py:36 | sections are in strictly ascending title order |
| Render.SectionContents | src/eegfm_digest/render.py:24-26 | a section holds exactly the ids of the summaries of its type, ordered by (published_date, id) |
| Render.SummaryPlaced | src/eegfm_digest/render.py:24-26 | every summary's id is in the section titled by its paper type |
| Render.FillSections | src/eegfm_digest/render.py:24-26 | the loop fills exactly the grouping `Group` describes |
| Render.ListSections | src/eegfm_digest/render.py:36 | the loop lists exactly the sections `SectionsOf` describes |
| Render.BuildDigest | src/eegfm_digest/render.py:22-37 | the digest has the month; stats of candidates, accepted triage rows and summaries; the top picks; and the sections |
| SiteFields.Text | src/eegfm_digest/site.py:122-123 | `str(value.get(key, "")).strip()`: always stripped |
| SiteFields.SiteText | src/eegfm_digest/site.py:80-85 | when the content is a dict whose value under the key is a non-blank string, that string stripped; in every other case (not a dict, key missing, not a string, blank) the default |
| SiteFields.SiteTextGiven | src/eegfm_digest/site.py:82-86 | a non-blank stripped string under the key is returned as it is |
| SiteFields.Cleaned | src/eegfm_digest/site.py:94 | a cleaned item is stripped |
| SiteFields.CleanPrepend | src/eegfm_digest/site.py:94 | a non-empty stripped item in front of clean items keeps the list clean |
| SiteFields.CleanStrings | src/eegfm_digest/site.py:94 | no more items than given, each non-empty and stripped |
| SiteFields.CleanStringsKeeps | src/eegfm_digest/site.py:94 | a list of non-empty stripped strings is kept as it is |
| SiteFields.CleanStringsDropsBlank | src/eegfm_digest/site.py:94 | a blank string item is dropped and changes nothing else |
| SiteFields.SiteList | src/eegfm_digest/site.py:88-96 | when the content is a dict whose value under the key is a list, the cleaned items (`str(item).strip()` of the non-blank ones) if any remain, else the default; the default when the content is not a dict or the value not a list |
| SiteFields.SafeStrList | src/eegfm_digest/site.py:100-103 | [] for a non-list; for a list, exactly its cleaned items (`CleanStrings`: the stripped `str()` of each non-blank item, in order) |
| SiteFields.SafeFloat | src/eegfm_digest/site.py:106-110 | numbers convert, True and False give 1.0 and 0.0, a string is parsed or gives 0.0; None, lists and dicts give 0.0 |
| SiteFields.SafeInt | src/eegfm_digest/site.py:113-117 | integers are kept, floats truncate toward zero (`int(3.7) == 3`, `int(-3.7) == -3`), True and False give 1 and 0, a string is parsed or gives the default; None, lists and dicts give the default |
| SiteFields.SafeLinks | src/eegfm_digest/site.py:120-128 | abs is the stripped given abs, else "https://arxiv.org/abs/" + id; the pdf link is present exactly when the given one is non-blank, and then stripped |
| SiteFields.SafeLinksDefault | src/eegfm_digest/site.py:121-122 | a non-dict value gives only the default abs link |
| SiteFields.ReasonTexts | src/eegfm_digest/site.py:134-136 | a list becomes the `str()` of each item, position by position; anything else becomes the one-element list of its `str()` |
| SiteFields.SafeTriage | src/eegfm_digest/site.py:131-141 | a non-dict gives reject, 0.0 and no reasons; a given decision is its `str()` and a missing one is reject; a given confidence is its safe float and a missing one is 0.0; the reasons are the texts of the given reasons |
| SiteFields.SummaryFailureReasonAsWritten | src/eegfm_digest/site.py:144-152 | as written: never empty |
| SiteFields.NullErrorReadsNone | src/eegfm_digest/site.py:149-151 | a row whose extraction recorded `"error": null` reports the reason "None" |
| SiteFields.NullErrorUnavailable | src/eegfm_digest/site.py:144-152 | the corrected reason for that row is "summary_unavailable" |
| SiteFields.SummaryFailureReason | src/eegfm_digest/site.py:144-152 | as intended: "summary_unavailable" when no extraction error is recorded (null counting as none), otherwise the stripped error text when it is non-blank |
| SiteFields.FailureReasonsAgree | src/eegfm_digest/site.py:144-152 | the corrected and the written reason agree on every row whose error is not null |
| SiteFields.TokenReason | src/eegfm_digest/site.py:157-161 | a reason read from a notes token is non-empty, stripped, and comes from a token that starts with "summary_retry_failed_reason=" |
| SiteFields.Reasons | src/eegfm_digest/site.py:157-161 | the reading of each token, position by position |
| SiteFields.FirstGiven | src/eegfm_digest/site.py:157-161 | the first reason given, or none exactly when no token gives one |
| SiteFields.RetryReason | src/eegfm_digest/site.py:157-161 | a retry reason is non-empty and stripped |
| SiteFields.FirstGivenFirst | src/eegfm_digest/site.py:157-161 | the earliest token that gives a reason wins |
| SiteFields.RetryReasonFirst | src/eegfm_digest/site.py:157-161 | the first token carrying a non-empty retry reason decides the retry reason |
| SiteFields.PlaceholderReasonSpec | src/eegfm_digest/site.py:155-167 | the placeholder reason is never empty |
| SiteFields.NotesReason | src/eegfm_digest/site.py:155-166 | the reason from notes is never empty |
| SiteFields.PrefixMentions | src/eegfm_digest/site.py:159-162 | a token starting with the retry prefix mentions "summary_retry_failed" |
| SiteFields.StripContains | src/eegfm_digest/site.py:156 | what the stripped notes contain, the notes contain |
| SiteFields.TokenReasonMentions | src/eegfm_digest/site.py:159-162 | a token that gives a retry reason mentions "summary_retry_failed" |
| SiteFields.NoRetryMention | src/eegfm_digest/site.py:157-163 | notes that never mention "summary_retry_failed" give no retry reason |
| SiteFields.JsonErrorReason | src/eegfm_digest/site.py:163-166 | notes with "summary_json_error" and no retry mention give "summary_json_error" |
| SiteFields.UnmarkedNotesUseRow | src/eegfm_digest/site.py:163-167 | notes with neither marker fall back to the row's extraction reason |
| SiteFields.ScanRetryReason | src/eegfm_digest/site.py:157-161 | the loop over tokens returns exactly the first retry reason |
| SiteFields.ReasonFromNotes | src/eegfm_digest/site.py:155-166 | the imperative reading of the notes returns exactly `NotesReason` |
| SiteFields.PlaceholderFailureReason | src/eegfm_digest/site.py:155-167 | the method returns exactly `PlaceholderReasonSpec`: the retry reason, then "summary_retry_failed", then "summary_json_error", then the row's extraction reason |
| SiteRows.BackendRow | src/eegfm_digest/site.py:179-199 | the row carries the stripped id, the safe triage and `published[:10]`; exactly one of summary and failure reason is set; a kept summary is the given dict and not a placeholder; a missing summary gives the extraction reason, a placeholder the placeholder reason |
| SiteRows.ShownGood | src/eegfm_digest/site.py:173-186 | a shown backend row becomes a row with an id, an accept triage and exactly one of summary and failure reason |
| SiteRows.BackendRows | src/eegfm_digest/site.py:170-201 | no more page rows than backend rows |
| SiteRows.BackendRowsShown | src/eegfm_digest/site.py:172-178 | the page rows are, one for one and in order, the backend rows with a non-blank id and an accept decision |
| SiteRows.BackendRowsGood | src/eegfm_digest/site.py:172-199 | every page row has an id, an accept triage and exactly one of summary and failure reason |
| SiteRows.BackendRowsOrdered | src/eegfm_digest/site.py:172 | the shown rows come out in (published, id) order |
| SiteRows.BackendRowOf | src/eegfm_digest/site.py:173-199 | one loop step: the page row of a shown backend row, nothing for any other |
| SiteRows.BackendRowsSnoc | src/eegfm_digest/site.py:172-199 | one more backend row adds its page row exactly when it is shown |
| SiteRows.CollectBackendRows | src/eegfm_digest/site.py:172-201 | the loop collects exactly `BackendRows` |
| SiteRows.PaperRowsFromBackend | src/eegfm_digest/site.py:170-201 | the page rows of the backend rows sorted by (published, id) |
| SiteRows.MetaOf | src/eegfm_digest/site.py:213 | a paper's metadata dict, else an empty dict |
| SiteRows.SummaryRow | src/eegfm_digest/site.py:214-227 | the row carries the stripped id and the summary itself, no failure reason, and an accept triage with confidence 0.0 |
| SiteRows.SummaryRows | src/eegfm_digest/site.py:209-228 | no more rows than summaries |
| SiteRows.SummaryRowsKept | src/eegfm_digest/site.py:210-212 | the rows are, one for one and in order, the summaries with a non-blank id |
| SiteRows.SummaryRowsSnoc | src/eegfm_digest/site.py:209-228 | one more summary adds its row exactly when it has an id |
| SiteRows.SummaryRowOf | src/eegfm_digest/site.py:210-227 | one loop step: the row of a summary with an id, nothing for any other |
| SiteRows.CollectSummaryRows | src/eegfm_digest/site.py:209-228 | the loop collects exactly `SummaryRows` |
| SiteRows.PaperRowsFromSummaries | src/eegfm_digest/site.py:204-229 | the rows of the summaries sorted by (published_date, id) |
| SiteRows.SummaryRowsGood | src/eegfm_digest/site.py:210-227 | every row from summaries has an id, its summary, no failure reason and an accept triage |
| SiteRows.DigestStats | src/eegfm_digest/site.py:241 | the digest's stats, or an empty dict |
| SiteRows.PayloadStats | src/eegfm_digest/site.py:244-252 | missing candidates count as 0, missing accepted as the number of rows, missing summarized as the rows with a summary; recorded integers for all three counts are kept |
| SiteRows.TopPickTexts | src/eegfm_digest/site.py:242-253 | no picks unless `top_picks` is a list, and then the `str()` of each item, position by position |
| SiteRows.TopPickTextsKeep | src/eegfm_digest/site.py:253 | string picks are kept as they are |
| SiteRows.BuildMonthPayload | src/eegfm_digest/site.py:231-255 | the payload has the month; rows from the backend export when there is one, else from the summaries; the payload stats; and the picks' texts |
| SiteManifest.Papers | src/eegfm_digest/site.py:534-541 | only dict rows are kept |
| SiteManifest.ManifestStatsOf | src/eegfm_digest/site.py:530-549 | a list payload counts every row as candidate, accepted and summarized; a payload without usable stats counts zeros; a dict without stats counts 0 candidates, the rows as accepted and the rows with a dict summary as summarized |
| SiteManifest.EmptyState | src/eegfm_digest/site.py:550-557 | "no_candidates" exactly when there are no candidates; "no_accepts" exactly when there are candidates and no accepts; "no_summaries" exactly when there are candidates and accepts but no summaries; "has_papers" exactly when all three counts are non-zero |
| SiteManifest.ListPayloadState | src/eegfm_digest/site.py:534-557 | a list payload reads "no_candidates" when empty and "has_papers" otherwise |
| SiteManifest.NoStatsNoCandidates | src/eegfm_digest/site.py:539-551 | a dict payload without stats reads "no_candidates" |
| SiteManifest.PickTexts | src/eegfm_digest/site.py:558-562 | no picks unless the payload is a dict whose `top_picks` is a list; then the `str()` of its non-blank items, in order |
| SiteManifest.PickTextsNonBlank | src/eegfm_digest/site.py:562 | every pick kept is non-blank |
| SiteManifest.PaperMap | src/eegfm_digest/site.py:566 | every row's id is a key of the paper map |
| SiteManifest.PaperMapOwnId | src/eegfm_digest/site.py:566 | each key maps to a row with that id |
| SiteManifest.PaperMapLastWins | src/eegfm_digest/site.py:566 | for duplicate ids the last row wins |
| SiteManifest.FirstSummarized | src/eegfm_digest/site.py:574-578 | the first row with a dict summary, or none exactly when no row has one |
| SiteManifest.ScanFirstSummarized | src/eegfm_digest/site.py:567-572 | the pick scan stops at the first listed pick that has a summary |
| SiteManifest.FeaturedFirstSummarizedPick | src/eegfm_digest/site.py:565-572 | the first listed pick with a summary is featured |
| SiteManifest.ScanLastUsable | src/eegfm_digest/site.py:567-572 | when no listed pick has a summary, the scan ends on the last pick found |
| SiteManifest.ScanNoneUsable | src/eegfm_digest/site.py:567-572 | when no pick is found the scan leaves its start value |
| SiteManifest.FeaturedLastUsablePick | src/eegfm_digest/site.py:565-572 | when no listed pick has a summary, the last pick found is featured |
| SiteManifest.FeaturedWithoutPicks | src/eegfm_digest/site.py:573-580 | without a pick found: the first row with a summary, else the first row, else none |
| SiteManifest.FeaturedExactlyWithPapers | src/eegfm_digest/site.py:565-580 | a paper is featured exactly when there are papers |
| SiteManifest.FeaturedTitle | src/eegfm_digest/site.py:586-591 | the summary's stripped title when the summary dict has a non-blank one; the row's title when the summary has no title or there is no summary dict; the id when that choice is blank; never empty for a row with an id |
| SiteManifest.FeaturedAbs | src/eegfm_digest/site.py:592-596 | the row's non-blank `links.abs`, else the arXiv abstract page of the id, else empty; never empty for a row with an id |
| SiteManifest.FeaturedOf | src/eegfm_digest/site.py:582-605 | the featured entry has the row's stripped id, `FeaturedTitle` and `FeaturedAbs` of the row, and the summary's stripped one-liner, or an empty one without a summary dict |
| SiteManifest.FeaturedTitleFallsBack | src/eegfm_digest/site.py:587-591 | a summary without a title falls back to the row's title, then to the id |
| SiteManifest.CountMonth | src/eegfm_digest/site.py:530-549 | the counting code returns the dict rows and exactly `ManifestStatsOf` |
| SiteManifest.ScanPickLoop | src/eegfm_digest/site.py:565-572 | the loop over picks returns exactly the pick scan |
| SiteManifest.FirstSummarizedLoop | src/eegfm_digest/site.py:573-578 | the loop over rows returns exactly `FirstSummarized` |
| SiteManifest.ChooseFeatured | src/eegfm_digest/site.py:564-580 | the imperative choice returns exactly `FeaturedRow` |
| SiteManifest.MonthManifestItem | src/eegfm_digest/site.py:520-620 | the item has the month, its two paths, the stats, the empty state of those stats, and the featured entry of the chosen row |
| BatchMonths.NonBlankTexts | src/eegfm_digest/batch.py:83 | no more texts than items, and no text kept is blank |
| BatchMonths.NonBlankTextsStrings | src/eegfm_digest/batch.py:83 | on a list of strings, exactly the non-blank ones in order |
| BatchMonths.ParseMonths | src/eegfm_digest/batch.py:74-83 | raises a RuntimeError exactly when the config is not a dict or `months` is neither a string nor a list; the months read are non-blank |
| BatchMonths.MonthsFromString | src/eegfm_digest/batch.py:79-80 | a bare string becomes a one-element list, or none when it is blank |
| BatchMonths.MonthsFromList | src/eegfm_digest/batch.py:83 | a list of strings keeps exactly its non-blank entries |
| BatchMonths.Dedup | src/eegfm_digest/batch.py:113 | duplicate-free, with the same members |
| BatchMonths.SortedUnique | src/eegfm_digest/batch.py:113 | `sorted(set(months))`: sorted, duplicate-free, the same members |
| BatchMonths.SortedUniqueAscending | src/eegfm_digest/batch.py:113 | strictly ascending |
| BatchMonths.AddDiscovered | src/eegfm_digest/batch.py:107-112 | the configured months plus the discovered ones, and empty only when both are |
| BatchMonths.EffectiveMonths | src/eegfm_digest/batch.py:106-117 | a sorted, duplicate-free list of exactly the configured months plus, when enabled, the discovered ones; raises exactly when that is empty |
| BatchTriage.FloatOf | src/eegfm_digest/batch.py:236 | `float()` succeeds exactly when the value converts, and its failure is an ordinary exception |
| BatchTriage.RowFields | src/eegfm_digest/batch.py:234-239 | a row has exactly the keys arxiv_id_base, decision, confidence and reasons, holding the values it was built from |
| BatchTriage.NormalizeTriageRow | src/eegfm_digest/batch.py:230-239 | succeeds exactly on a dict whose confidence converts, and then holds the id, the decision (default reject), the confidence (default 0.0) and the reasons, a non-list wrapped as a one-element list |
| BatchTriage.NormalizedShape | src/eegfm_digest/batch.py:230-239 | a normalised row has exactly the four keys and the given id; a missing decision is reject and a missing confidence 0.0; reasons are a list |
| BatchTriage.NormalizeIdempotent | src/eegfm_digest/batch.py:230-239 | normalising a normalised row changes nothing |
| BatchTriage.TriageView | src/eegfm_digest/batch.py:119-129 | a falsy triage reads as reject, 0.0 and no reasons; the view has exactly decision, confidence and reasons; it raises exactly on a truthy non-dict or an unreadable confidence |
| BatchTriage.ViewOfNormalized | src/eegfm_digest/batch.py:119-129 | the view of a normalised row equals the view of the original record |
| BatchTriage.FallbackRowStable | src/eegfm_digest/batch.py:293-299 | the exception fallback row is a reject with confidence 0.0, the four keys and the paper's id, and normalising leaves it as it is |
| BatchTriage.ClientErrorId | src/eegfm_digest/batch.py:154-160 | a row raises exactly when it is not a dict |
| BatchTriage.ClientErrorIdMeaning | src/eegfm_digest/batch.py:154-160 | a row contributes an id exactly when some reason mentions "triage_exception:ClientError" and its id is a non-empty string |
| BatchTriage.CollectIdsFails | src/eegfm_digest/batch.py:152-162 | the scan succeeds exactly when every row does |
| BatchTriage.CollectIdsMembers | src/eegfm_digest/batch.py:152-162 | the ids gathered are exactly those the rows contribute |
| BatchTriage.CollectIdsStopped | src/eegfm_digest/batch.py:152-162 | once a row raises, later rows change nothing |
| BatchTriage.ClientErrorIdsMembers | src/eegfm_digest/batch.py:152-162 | the set is computed exactly when every row is a dict, and holds exactly the ids of rows that mention a client error |
| BatchTriage.TriageClientErrorIds | src/eegfm_digest/batch.py:152-162 | the loop returns exactly `ClientErrorIds` |
| BatchTriage.TriageStep | src/eegfm_digest/batch.py:274-299 | a produced row is a four-key row for the paper; a cached record is normalised; a fatal exception propagates; an ordinary one gives the fallback row; a verdict always gives a row |
| BatchTriage.Advance | src/eegfm_digest/batch.py:272-302 | one loop turn appends exactly one row for the paper and caches it, or stops; only a fatal exception or a cached record that fails to normalise stops the loop; a stopped loop stays stopped |
| BatchTriage.TriageRunLength | src/eegfm_digest/batch.py:272-302 | at most one row per candidate, and exactly one each when the loop runs to the end |
| BatchTriage.RowsMatchPrefix | src/eegfm_digest/batch.py:272-302 | rows that match a prefix of the candidates match the candidates |
| BatchTriage.RowsMatchSnoc | src/eegfm_digest/batch.py:300 | appending the next candidate's row keeps rows and candidates matched |
| BatchTriage.TriageRunRows | src/eegfm_digest/batch.py:272-302 | the i-th row is a four-key row for the i-th candidate |
| BatchTriage.AllCachedSnoc | src/eegfm_digest/batch.py:301 | caching the next candidate keeps every candidate so far cached |
| BatchTriage.TriageRunCacheGrows | src/eegfm_digest/batch.py:272-302 | the loop only adds to the cache: every id cached before it is cached after it |
| BatchTriage.TriageRunCache | src/eegfm_digest/batch.py:272-302 | a loop that ran to the end leaves every candidate's id in the cache |
| BatchTriage.TriageRunStopped | src/eegfm_digest/batch.py:291-292 | once stopped, later candidates change nothing |
| BatchTriage.ForceIgnoresCache | src/eegfm_digest/batch.py:275-278 | under force the rows and the outcome do not depend on the cache |
| BatchTriage.StopsAtPrefix | src/eegfm_digest/batch.py:272-302 | a stop within a prefix of the candidates is a stop of the whole run |
| BatchTriage.TriageRunStopsOn | src/eegfm_digest/batch.py:279-292 | a stopped loop was stopped by a particular candidate's exception |
| BatchTriage.CacheGrowsFrom | src/eegfm_digest/batch.py:301 | every new cache key is some candidate's id |
| BatchTriage.TriagePhase | src/eegfm_digest/batch.py:272-305 | the method's cache is the loop's; a stopped loop raises its exception; otherwise the rows come out sorted by id |
| Selection.IndexRow | src/eegfm_digest/batch.py:326 | one step of `{row["arxiv_id_base"]: row ...}`: it fails exactly when the row is not a dict or its id is unhashable (a list or dict); a string id is bound to the row, overwriting an earlier binding |
| Selection.TriageIndex | src/eegfm_digest/batch.py:326 | building the index fails exactly when some row cannot be indexed |
| Selection.TriageIndexKeys | src/eegfm_digest/pipeline.py:84 | a string is a key of the index exactly when some row carries it as its `arxiv_id_base` |
| Selection.TriageIndexLastWins | src/eegfm_digest/pipeline.py:84 | for an id listed more than once, the index holds the last row with that id |
| Selection.Capped | src/eegfm_digest/batch.py:333 | `s[:cap]` is a prefix of `s`; a cap of None or one at least the length keeps everything; a cap within the length keeps exactly that many |
| Selection.SummaryOrderSorted | src/eegfm_digest/batch.py:333 | the chosen papers are sorted by (published, id), are a sub-multiset of the pool, and are the whole pool when the cap is None or not reached |
| Selection.PoolEligible | src/eegfm_digest/pipeline.py:85-90 | every paper in the pool is a candidate decided `accept`, or `borderline` when borderline papers are included |
| Selection.SummaryOrderFromPool | src/eegfm_digest/batch.py:333 | sorting and capping keep any property every pool member has |
| Selection.SummaryOrderKeepsEarliest | src/eegfm_digest/batch.py:333 | a paper the cap drops sorts no earlier than any paper kept |
| Selection.BatchSelection | src/eegfm_digest/batch.py:328-333 | every paper chosen is a candidate decided `accept`, or `borderline` when enabled |
| Selection.BatchSelectionKeepsAccepted | src/eegfm_digest/batch.py:328 | without a cap every accepted candidate is chosen |
| Selection.PipelineSelection | src/eegfm_digest/pipeline.py:85-91 | every paper chosen is a candidate decided `accept`, or `borderline` when enabled |
| Selection.PipelineBorderlineCapped | src/eegfm_digest/pipeline.py:87-89 | a chosen borderline paper is among the first `max_borderline_pdfs` borderline candidates |
| BatchSummary.PdfState | src/eegfm_digest/batch.py:132-138 | a PDF state has exactly the four keys `downloaded`, `pdf_path`, `text_path`, `extract_meta`, holding the given flag and metadata |
| BatchSummary.FetchPaper | src/eegfm_digest/batch.py:356-390 | without a PDF link: no text, notes `summary_skipped:missing_pdf_link`, error `missing_pdf_link`; on a failed download or extraction: no text, notes and error naming the exception type; otherwise the extracted text, the metadata as sorted-key JSON for notes, and the metadata recorded |
| BatchSummary.TextOnlyWhenDownloaded | src/eegfm_digest/batch.py:392 | non-blank text reaches the summariser only from a paper with a PDF link whose download succeeded, and its state says `downloaded: true` |
| BatchSummary.VisitEffect | src/eegfm_digest/batch.py:349-411 | one turn: a cached paper (not forced) changes nothing; the turn fails only on non-blank text, with the summariser's exception or with the error `db.upsert_summary` raises reading the returned summary's `arxiv_id_base`; otherwise the paper's PDF state is recorded, no other paper's summary changes, and a summary once present stays |
| BatchSummary.VisitSkips | src/eegfm_digest/batch.py:351-352 | a paper with a summary already, in a run that is not forced, is passed over |
| BatchSummary.VisitFails | src/eegfm_digest/batch.py:392-407 | an exception from the summariser on non-blank text ends the phase with that exception |
| BatchSummary.VisitUnkeyedFails | src/eegfm_digest/batch.py:408 | a returned summary that is not a dict, or lacks `arxiv_id_base`, ends the phase with the TypeError or KeyError the upsert raises |
| BatchSummary.VisitRecords | src/eegfm_digest/batch.py:392-411 | when the text is blank, or the summariser returns a dict holding `arxiv_id_base`, the summary (only for non-blank text) is stored under the paper's id and the PDF state is recorded |
| BatchSummary.RunStopped | src/eegfm_digest/batch.py:349-411 | once a turn has raised, the papers after it change nothing |
| BatchSummary.CachedSummaryKept | src/eegfm_digest/batch.py:351-352 | without force, a summary loaded from `papers.jsonl` comes out unchanged |
| BatchSummary.PdfStateRecorded | src/eegfm_digest/batch.py:411 | every chosen paper ends with a PDF state, unless it was passed over for its cached summary |
| BatchSummary.SummaryFromPaper | src/eegfm_digest/batch.py:407 | every new summary belongs to a chosen paper |
| BatchSummary.SummaryRunFails | src/eegfm_digest/batch.py:392-408 | a failed loop failed on some chosen paper with non-blank text, with the exception the summariser raised for it or the error of upserting the summary it returned |
| BatchSummary.SummaryLoop | src/eegfm_digest/batch.py:349-411 | the loop computes the turn-by-turn run, stopping at the first exception |
| BatchSummary.SummaryKeyOf | src/eegfm_digest/batch.py:413 | the sort key of a summary is readable exactly when it is a dict with `published_date` and `arxiv_id_base`, and is then the (published_date, id) key |
| BatchSummary.FirstKeyError | src/eegfm_digest/batch.py:413 | no error exactly when every summary has a readable key |
| BatchSummary.SortedByDate | src/eegfm_digest/batch.py:413 | sorting succeeds exactly when every key is readable, and yields a permutation sorted by (published_date, id) |
| BatchSummary.SortedSummaries | src/eegfm_digest/batch.py:413 | `sorted(summary_map.values(), ...)`: a permutation of the map's values, sorted by (published_date, id), failing exactly when some key is unreadable |
| BatchSummary.BackendRow | src/eegfm_digest/batch.py:420-436 | the row fails exactly when the triage view raises; it has the thirteen keys in order, sorts by (published, id) of its paper, and holds the triage view, the summary or null, and the PDF state or the empty one |
| BatchSummary.BackendRows | src/eegfm_digest/batch.py:418-437 | one row per candidate, in order, with the thirteen keys and the candidate's sort key; fails exactly when some triage view raises |
| BatchSummary.BackendRowsSorted | src/eegfm_digest/batch.py:419 | rows built from candidates sorted by (published, id) are sorted by the rows' own (published, id) |
| BatchSummary.BackendRowsLoop | src/eegfm_digest/batch.py:418-437 | the loop builds exactly the backend rows, stopping at the first exception |
| BatchSummary.StoreSummary | src/eegfm_digest/batch.py:340 | one earlier summary entered into the map: fails exactly when it cannot be indexed; a string id stores it, any other id changes nothing |
| BatchSummary.SummaryMapOf | src/eegfm_digest/batch.py:340 | the summary map is built exactly when every earlier summary can be indexed |
| BatchSummary.SummaryMapAgrees | src/eegfm_digest/batch.py:340 | the ordered summary map fails exactly when the dict comprehension does, and holds the same entries |
| BatchSummary.StorePdf | src/eegfm_digest/batch.py:342-345 | one earlier backend row entered: fails exactly when it is not a dict or its id is unhashable; a string id maps to its `pdf`, or the empty state when that is falsy |
| BatchSummary.PdfMapOf | src/eegfm_digest/batch.py:342-345 | the PDF map is built exactly when every earlier row can be entered |
| BatchSummary.PdfMapLastWins | src/eegfm_digest/batch.py:342-345 | for each id the map holds the state from the last row carrying it |
| BatchSummary.SummaryPhase | src/eegfm_digest/batch.py:326-437 | an unindexable triage file raises its exception; otherwise the loop runs from the earlier summaries (none when forced) and PDF states over the papers chosen from the triage index, and the first of loading, the loop, sorting the summaries and building the backend rows that raises gives the result; on success the summaries are a permutation of the loop's summary values sorted by (published_date, id), and the backend rows are exactly those of the candidates sorted by (published, id): one per candidate, thirteen keys, sorted |
| BatchSummary.SummaryStep | src/eegfm_digest/batch.py:350-411 | the imperative body of the loop for one paper does exactly what one turn of the run does |
| Records.RowKey | src/eegfm_digest/db.py:77 | reading `row["arxiv_id_base"]` succeeds exactly when the row is a dict holding that key, and gives the id as `str()` would |
| Pipeline.Db.constructor | src/eegfm_digest/db.py:61-99 | a database starts from the given triage and summary tables |
| Pipeline.Db.UpsertTriage | src/eegfm_digest/db.py:67-79 | the row replaces whatever was stored under its own id; a row whose id cannot be read raises and changes nothing; the summary table is untouched |
| Pipeline.Db.UpsertSummary | src/eegfm_digest/db.py:87-99 | the summary replaces whatever was stored under its own id; one whose id cannot be read raises and changes nothing; the triage table is untouched |
| Pipeline.TriageLoopStopped | src/eegfm_digest/pipeline.py:50-58 | once a candidate's turn has raised, the later candidates change nothing: the run ends with that exception |
| Pipeline.TriageFallback | src/eegfm_digest/pipeline.py:59-69 | the fallback row carries the paper's id, decision `reject`, confidence 0.0 and the single reason `triage_exception:<exception type>` |
| Pipeline.TriageTurnEffect | src/eegfm_digest/pipeline.py:50-71 | a candidate's turn fails exactly when there is no truthy cached row and triage raises an exception `except Exception` does not catch; otherwise one or two rows are appended after the earlier ones, the last carries its id, a keyed table stays keyed, and two are appended only when the first had no id |
| Pipeline.TriageExceptionFallback | src/eegfm_digest/pipeline.py:58-71 | when triage raises a caught exception, the fallback reject row with confidence 0.0 is appended and upserted |
| Pipeline.CachedTriageReused | src/eegfm_digest/pipeline.py:52-57 | without force, a truthy cached triage row is appended as it is and triage is not consulted |
| Pipeline.TriageTurnFatal | src/eegfm_digest/pipeline.py:53-58 | an exception `except Exception` does not catch ends the run with that exception |
| Pipeline.TriageTurnCaught | src/eegfm_digest/pipeline.py:58-71 | a caught exception from triage adds the fallback row |
| Pipeline.TriageTurnRow | src/eegfm_digest/pipeline.py:53-57 | the row (cached when truthy, else the verdict) is appended; a keyed row is upserted under its id, and one without an id is followed by the fallback row |
| Pipeline.TriageLoopSnoc | src/eegfm_digest/pipeline.py:50 | the loop over i+1 candidates is the loop over i followed by candidate i's turn |
| Pipeline.TriageTurnKeyed | src/eegfm_digest/pipeline.py:51-71 | when the table and the verdict carry ids, a turn appends exactly one keyed row after the earlier ones and the table stays keyed |
| Pipeline.TriageRowsCount | src/eegfm_digest/pipeline.py:49-71 | a triage loop that got through n candidates has between n and 2n rows |
| Pipeline.TriageRowsKeyed | src/eegfm_digest/pipeline.py:49-71 | when every verdict carries its id, n candidates give exactly n keyed rows and a keyed table |
| Pipeline.TriageRowsPerCandidate | src/eegfm_digest/pipeline.py:49-71 | n candidates give between n and 2n rows, and exactly n keyed rows with a keyed table when every row involved carries its id |
| Pipeline.TriageLoopFails | src/eegfm_digest/pipeline.py:50-58 | a failed triage loop failed with the uncaught exception triage raised for some candidate |
| Pipeline.FirstUnkeyed | src/eegfm_digest/pipeline.py:73 | no exception exactly when every row carries its id |
| Pipeline.SortTriageRows | src/eegfm_digest/pipeline.py:73 | sorting succeeds exactly when every row carries its id, and yields a permutation of the rows sorted by id |
| Pipeline.InputFor | src/eegfm_digest/pipeline.py:100-117 | with `no_pdf` or without a PDF link the input is the abstract with `abstract_only`; full text is used exactly when the PDF step yields non-blank text and both window lengths are set, and is then the bounded window with the metadata as sorted-key JSON; a failed step notes `pdf_failed:<type>`, blank text notes `pdf_empty_text:<meta>` |
| Pipeline.InputWindowBounded | src/eegfm_digest/pipeline.py:111 | the full-text window is no longer than head + marker + tail |
| Pipeline.SummaryTurnEffect | src/eegfm_digest/pipeline.py:94-132 | a paper's turn fails exactly when there is no truthy cached summary, the paper has a triage row, and the summariser raises an uncaught exception; otherwise at most one summary is appended after the earlier ones, the cached one when truthy |
| Pipeline.SummaryLoopSnoc | src/eegfm_digest/pipeline.py:94 | the loop over i+1 papers is the loop over i followed by paper i's turn |
| Pipeline.SummaryLoopStopped | src/eegfm_digest/pipeline.py:94-132 | once a paper's turn has raised, the later papers change nothing: the run ends with that exception |
| Pipeline.SummaryCountBound | src/eegfm_digest/pipeline.py:93-132 | the loop yields at most one summary per chosen paper |
| Pipeline.SummaryLoopFails | src/eegfm_digest/pipeline.py:118-132 | a failed summary loop failed with the uncaught exception the summariser raised for some chosen paper with a triage row |
| Pipeline.TriageStage | src/eegfm_digest/pipeline.py:49-71 | the imperative triage loop returns the rows of the turn-by-turn run, or its exception, and leaves the triage table as the run does; the summary table is untouched |
| Pipeline.SummaryStage | src/eegfm_digest/pipeline.py:93-132 | the imperative summary loop returns the summaries of the turn-by-turn run, or its exception, and leaves the summary table as the run does; the triage table is untouched |
| Pipeline.SelectionBound | src/eegfm_digest/pipeline.py:85-91 | the summary set is never larger than the candidate list |
| Pipeline.MonthTriage | src/eegfm_digest/pipeline.py:49-73 | a month that ran to the end writes a permutation of the triage loop's rows, sorted by id, between one and two per candidate, and leaves the loop's triage table |
| Pipeline.MonthSummaries | src/eegfm_digest/pipeline.py:84-134 | a month that ran to the end writes a permutation of the summaries the summary loop produced over the papers chosen from the triage index, sorted by (published_date, id), at most one per candidate, and leaves that loop's summary table |
| Pipeline.MonthRun | src/eegfm_digest/pipeline.py:49-134 | a month whose triage loop raises ends with that exception, before any summary is written |
| Pipeline.RunMonth | src/eegfm_digest/pipeline.py:49-134 | the method returns exactly what `MonthRun` computes from the tables it started with, and on success leaves the two tables `MonthRun` gives; once the triage loop has run through, the triage table is the loop's |
| Pipeline.TriageCandidate | src/eegfm_digest/pipeline.py:51-71 | the imperative body of the triage loop for one candidate appends and upserts exactly what one turn of the run does, or raises its exception |
| Pipeline.SummaryPaper | src/eegfm_digest/pipeline.py:95-132 | the imperative body of the summary loop for one paper appends and upserts exactly what one turn of the run does, or raises its exception |
| Profile.NameLen | src/eegfm_digest/profile.py:14 | `[A-Za-z0-9_]*` matches greedily: the run of name characters from a position, stopping at the end or at the first other character |
| Profile.DefaultLen | src/eegfm_digest/profile.py:14 | `[^}]*` matches greedily: the run up to the end or the first `}` |
| Profile.NameLenExact | src/eegfm_digest/profile.py:14 | any maximal run of name characters is the one the name part matches |
| Profile.DefaultLenExact | src/eegfm_digest/profile.py:14 | any maximal run without `}` is the one the default part matches |
| Profile.MatchAt | src/eegfm_digest/profile.py:14 | a match at the start of a string covers a prefix spelled `${NAME}` or `${NAME:DEFAULT}`, with a valid name and a default without `}`; a string not starting with `$` has no match |
| Profile.MatchRefText | src/eegfm_digest/profile.py:14 | every well-formed reference is matched, exactly to its end, whatever follows it |
| Profile.Replacement | src/eegfm_digest/profile.py:18-25 | a set variable wins, even over a default; an unset one gives its default; an unset one without a default raises `RuntimeError("Missing required environment variable: NAME")` |
| Profile.ExpandEnvStr | src/eegfm_digest/profile.py:17-27 | the expansion raises only a RuntimeError whose message starts "Missing required environment variable: ", and only on text that holds a `$` |
| Profile.ExpandSkip | src/eegfm_digest/profile.py:27 | a character other than `$` is copied and the scan goes on after it |
| Profile.ExpandPrefix | src/eegfm_digest/profile.py:27 | a prefix without `$` is copied unchanged |
| Profile.ExpandPlain | src/eegfm_digest/profile.py:27 | a string without `$` expands to itself |
| Profile.ExpandAtRef | src/eegfm_digest/profile.py:17-27 | a reference at the start is replaced and the scan resumes right after it |
| Profile.ExpandSplice | src/eegfm_digest/profile.py:17-27 | in `pre + ${…} + post` with no `$` in `pre`, the text before is kept, the reference replaced, and the rest expanded |
| Profile.SetVariableWins | src/eegfm_digest/profile.py:21-22 | `${NAME:DEFAULT}` with NAME set expands to its value |
| Profile.UnsetVariableRaises | src/eegfm_digest/profile.py:25 | an unset variable without a default makes the whole expansion raise |
| Profile.DollarWithoutBrace | src/eegfm_digest/profile.py:14 | `$X` is not a reference and stays |
| Profile.NameStartsWithDigit | src/eegfm_digest/profile.py:14 | `${1X}` is not a reference and stays |
| Profile.UnclosedReference | src/eegfm_digest/profile.py:14 | `${A` without its brace is not a reference and stays |
| Profile.ExpandEnv | src/eegfm_digest/profile.py:30-37 | expanding keeps the shape: a list stays a list of the same length, a dict keeps its keys in order, a string stays a string, and anything else is returned as it is |
| Profile.ExpandItems | src/eegfm_digest/profile.py:34 | every item of a list is expanded, keeping its length |
| Profile.ExpandFields | src/eegfm_digest/profile.py:36 | every value of a dict is expanded, keeping its keys |
| Profile.ExpandEnvNoRefs | src/eegfm_digest/profile.py:30-37 | a document without references expands to itself |
| Profile.ExpandItemsNoRefs | src/eegfm_digest/profile.py:34 | a list without references expands to itself |
| Profile.ExpandFieldsNoRefs | src/eegfm_digest/profile.py:36 | a dict without references expands to itself |
| Profile.RequiredStr | src/eegfm_digest/profile.py:61-65 | succeeds exactly when the key holds a string that is not blank, giving it stripped (and non-empty); otherwise raises ``Missing string `path.key` `` |
| Profile.RequiredDict | src/eegfm_digest/profile.py:47-51 | succeeds exactly when the key holds a dict, giving that dict; otherwise raises ``Missing object `path.key` `` |
| Profile.RequiredList | src/eegfm_digest/profile.py:54-58 | succeeds exactly when the key holds a list, giving that list; otherwise raises ``Missing list `path.key` `` |
| Profile.Provider | src/eegfm_digest/profile.py:152-154 | accepted exactly when `llm.provider` is a non-blank string that is `openai_compatible` once stripped and lower-cased; otherwise the missing-string error or the "only `openai_compatible`" error |
| Profile.TagsFrom | src/eegfm_digest/profile.py:183-185 | every tag list holds only non-blank strings |
| Profile.TagsFromValue | src/eegfm_digest/profile.py:183-185 | a list-valued category not overridden later maps to the `str()` of its non-blank items, in order |
| Profile.AllowedTags | src/eegfm_digest/profile.py:179-185 | tags are configured exactly when `summary.allowed_tags` is a dict (a `summary` that is not a dict counts as `{}`); then every list-valued category not overridden by a later list under the same name holds `str(item)` of its non-blank items, in order, and every key held is the name of some list-valued category |
| Profile.TagsFromKeys | src/eegfm_digest/profile.py:183-185 | a key has a tag list exactly when some entry under that key holds a list |
| Profile.AllowedTagsLoop | src/eegfm_digest/profile.py:179-185 | the imperative loop builds exactly the allowed tags |
| Profile.TrailingNewlineAccepted | src/eegfm_digest/profile.py:234-235 | `demo\n` passes the id check although it is not made of id characters only |
| Profile.ProfileIdChecksDiffer | src/eegfm_digest/profile.py:234-235 | every valid id passes the id pattern, and the pattern as written accepts an invalid id exactly when it is a valid one plus one trailing newline |
| Run.PreviousMonth | src/eegfm_digest/run.py:16 | the month before: a month from 1 to 12, exactly one month earlier counted from year 0 |
| Run.PreviousOfJanuary | src/eegfm_digest/run.py:16 | January steps back to December of the year before |
| Run.NatTextWidth | src/eegfm_digest/run.py:17 | a number below 10^k has at most k digits, so `:04d` and `:02d` pad without overflow |
| Run.DefaultMonth | src/eegfm_digest/run.py:14-17 | `YYYY-MM` of the month before today's: seven characters with a dash at index 4, digits around it, a month from 1 to 12, one month before today; stepping back from January of year 1 is the only error |
| Run.DefaultMonthIgnoresDay | src/eegfm_digest/run.py:15 | the day of the month plays no part |
| Run.DefaultMonthInJanuary | src/eegfm_digest/run.py:15-17 | in January the default is December of the year before |

## Left out

- The language model, HTTP transport, arXiv fetching, PDF download and text extraction are collaborators. They appear as parameters, scripted classes or download outcomes: a text with its metadata, or the name of the exception raised.
- File reading and writing are left out: YAML and JSON loading, `write_json`/`write_jsonl`, and the copying of profile directories. Loaded documents are inputs and written documents are results.
- `json.loads`, `json.dumps`, `jsonschema.validate` and Python's float and int parsing of strings are abstract functions (`JsonValue.Codec`, `Generation.Schema`).
- OpenRouter.RateLimitStop: the message ends after `status=N`; the excerpt `resp.text[:220]` that batch.py:221 appends is not carried, because `HttpResponse` holds only the parsed body.
- Python's `str()` of a float, list or dict is a non-blank stand-in (`JsonValue.Display`). Strings, integers, booleans and None are rendered exactly.
- `Strings.Lower` lower-cases ASCII only; Python's `str.lower` also folds other letters.
- The SQLite cache is the class `Pipeline.Db`, a pair of maps. Its key is the id as `str()` renders it. Commits, timestamps and the `month` column are not modelled.
- Records.RowKey: the column `arxiv_id_base TEXT PRIMARY KEY` turns a bound value into text. A string or an integer id is stored as the model keys it. A boolean binds as 1 or 0 and is stored as "1" or "0", where the model keys "True" or "False". A null id is a NULL key that never conflicts, so each upsert adds a row that no lookup finds, where the model keeps one entry under "None". A list or dict id makes sqlite3 raise while binding, where the model stores it under its rendering. A float id is keyed by the same stand-in rendering as `JsonValue.Display`.
- Selection.TriageIndex: the `triage_map` comprehension indexes string ids only. A row whose id is a number, boolean or null is keyed by that value in Python, where no paper's string id can look it up, so passing it over changes no lookup.
- BatchSummary.StoreSummary: an earlier summary whose `arxiv_id_base` is a number, boolean or null is dropped from the summary map. Python keys it by that value, and `summary_map.values()` still writes it to `papers.jsonl`; the model's output loses it. Python's `True == 1` key collision is not modelled either.
- BatchSummary.SummaryMapAgrees: it compares the summary map with the string-keyed index, so it shares the gap above.
- BatchSummary.SortedByDate and Pipeline.SortTriageRows compare keys through their `str()` rendering (`JsonValue.Display`). Ids or dates of mixed types, such as a string and an integer, are put in order where Python raises TypeError.
- Render.BuildDigest: summaries and triage rows arrive as typed views (`Render.SummaryView`, `Render.TriageEntry`), so render.py's error paths are not modelled. A missing key raises KeyError there. `float()` of a non-numeric confidence string raises, and one such as "0.9" is read as a number. A `key_points` string is iterated character by character. `t["decision"]` raises on a row without it.
- SiteRows.BackendRow: the failure reason of a shown row without a summary uses the corrected `SiteFields.SummaryFailureReason`. For a row whose `pdf.extract_meta` holds `"error": null`, site.py:183 as written gives "None" (`SiteFields.SummaryFailureReasonAsWritten`), and the model gives "summary_unavailable". The two readings agree on every other row (`SiteFields.FailureReasonsAgree`).
- SiteRows.BackendRowOf: shares the SiteRows.BackendRow gap.
- SiteRows.BackendRows: shares the SiteRows.BackendRow gap.
- SiteRows.PaperRowsFromBackend: shares the SiteRows.BackendRow gap.
- SiteRows.BuildMonthPayload: rows built from the backend export share the SiteRows.BackendRow gap.
- SiteFields.PlaceholderReasonSpec: its last fallback is the corrected `SummaryFailureReason`, so for a null extraction error it gives "summary_unavailable" where site.py:167 gives "None".
- SiteFields.UnmarkedNotesUseRow: shares the SiteFields.PlaceholderReasonSpec gap.
- SiteFields.PlaceholderFailureReason: shares the SiteFields.PlaceholderReasonSpec gap.
- SiteRows.BackendRow and SiteRows.SummaryRow read a row or summary that is not a dict as an empty dict. In Python, `.get` on such a value raises AttributeError.
- Pipeline.RunMonth: after an exception in the summary stage, or in sorting or indexing after the triage loop, the database holds the upserts made before it. Only the triage table after a completed triage loop is stated; the summary table at such a point is not.
- Sleeps between calls, progress output, `month_label`, and the site's HTML and JavaScript builders are left out.
- `slice_paper_text` and token budgets are left out, because `pdf.py` does not define the function.
- `_expand_env` stringifies keys. JSON keys are already strings, so this changes nothing in the model.
- Pipeline.InputFor: the model uses the corrected `Pdf.BoundedWindow`. The two windows agree for every non-zero tail (`Pdf.BoundedWindowAgrees`).
- Run.DefaultMonth: January of year 1 has no previous month. Python's `date` raises ValueError there, and the model returns an error with that name.
- BatchSummary.SummaryPhase: the download is a function of the paper. The digest and site calls after the phase, and the `arxiv_raw.json`/`triage.jsonl` existence check, are left out.
- Only the string checks of `load_profile` are modelled: the required readers, the provider check and `allowed_tags`. Path resolution, file-existence checks and the numeric and boolean fields of the profile are left out.
- Pdf.BoundedWindowAgrees and Run.DefaultMonthIgnoresDay follow from the definitions alone, so their proofs are empty.

## Findings

| source | as written | input that shows it | evidently intended | confidence | as-written member | corrected member |
|---|---|---|---|---|---|---|
| src/eegfm_digest/pdf.py:51 | `text[-tail_chars:]` with `tail_chars == 0` is the whole text, so the "bounded" window holds the head, the marker and then the entire text | `bounded_text("abc", 1, 0)` gives `"a" + marker + "abc"`, longer than the input | a zero tail keeps no tail characters, so the window never exceeds head + marker + tail | high, not executed | Pdf.ZeroTailKeepsWholeText | Pdf.BoundedWindow |
| src/eegfm_digest/site.py:149-151 | `meta.get("error", "")` returns None when the key holds null, and `str(None).strip()` is the non-blank "None", so the reason reads "None" | a backend row whose `pdf.extract_meta` is `{"error": null}`, as a successful extraction records it | a null error counts as no error, and the reason falls through to "summary_unavailable" | medium, not executed | SiteFields.NullErrorReadsNone | SiteFields.NullErrorUnavailable |
| src/eegfm_digest/profile.py:234-235 | `re.match(r"^[a-zA-Z0-9_-]+$", …)` lets `$` match before one trailing newline | `"demo\n"` passes the id pattern and becomes a directory name ending in a newline | only letters, digits, `_` and `-` are allowed (`re.fullmatch` or `\Z`) | high, not executed | Profile.TrailingNewlineAccepted | Profile.ProfileIdChecksDiffer |
