# Company Results Profiler: a Dafny model

A model of the core of a dashboard that profiles a listed company's filings on the Bombay Stock
Exchange (BSE):

- The announcements of each configured category are fetched quarter by quarter over a fiscal-year range.
- They are pivoted into a config-by-quarter table of PDF links.
- The session's state is kept across page runs.
- The financial results of a chosen quarter are extracted from its filing by a language model, and the answer is converted into a table.

The model covers:

- **QuarterCalendar** (`calendar.dfy`): `get_quarter_dates`. The fiscal year `fy` starts on 1 April of `fy - 1`. Dates are integer triples, and `datetime`'s year range 1..9999 is an explicit error.
- **Announcements** (`announcements.dfy`): the item-to-record loop of `get_bse_data_by_config`, which covers:
  - the case-insensitive filter;
  - the absolute link;
  - the date normalisation with its raw-text fallback;
  - the `DocumentFrame` class for the announcements DataFrame, whose `Quarter_FY` column the pivot adds in place.
- **BseCore** (`fetch.dfy`):
  - `get_quarter_data`: the config loop with lookahead windows, deduplication by name and quarter stamping.
  - `get_range_quarters_data`: the `while` loop over (fy, q).
  - The exchange request is an adapter parameter.
- **GenaiExtract** (`genai_extract.dfy`): `json_to_dataframe`. The fence-removing substitution `re.sub(r"^```json\s*|\s*```$", "", text.strip(), flags=re.MULTILINE)` is written out character by character. `json.loads` is a parameter.
- **Helpers** (`helpers.dfy`):
  - `quarter_sort_key`;
  - `pivot_announcement_links`, including its config-order loop and its in-place column;
  - the label split;
  - the conversion chain of `extract_results_from_pdf_link`.
- **AppStateStore** (`app_state.dfy`): `StreamlitAppState` as a class over the session map, covering:
  - the defaults;
  - `__init__`;
  - the three resets;
  - `get`/`set`;
  - one property per key.
- **App** (`app.dfy`): the page handlers, with widgets supplying values and button presses modelled as method calls. These cover:
  - company search and selection parsing;
  - the five-fiscal-year guard;
  - the fetch and the pivot shown after it;
  - the quarter choice;
  - the candidate filter, the pick by link count, and the Extract and "try next" buttons.

Helpers shared by all modules are `Wrappers` (Option, Result) and `Strings`, which holds Python's `str.strip`, `str.split`, `str.lower`, `str(int)` and zero-padded numbers on ASCII.

Two behaviours of the code are worth stating plainly:

- A start quarter past the end quarter yields an empty result, not an error. This follows the loop condition at bse_core.py:132 and the empty-frame return at bse_core.py:144-145.
- A config whose name was already used is still queried when every earlier config of that name returned nothing (bse_core.py:114-118).

## Model

| member | source | states |
|---|---|---|
| QuarterCalendar.QuarterStart | bse_core.py:79-88 | The start is defined exactly for quarters 1..4; any other quarter is the InvalidQuarter error |
| QuarterCalendar.AddMonths | bse_core.py:89 | Adding k months moves the month index on by exactly k and keeps the month in 1..12 |
| QuarterCalendar.QuarterDates | bse_core.py:75-90 | Success implies a quarter in 1..4; both dates are valid calendar dates and the start is the 1st of its month; a bad quarter is InvalidQuarter |
| QuarterCalendar.QuarterDatesDomain | bse_core.py:79-89 | The (q, fy) pairs with dates are exactly those whose start and start+3 months fall in years 1..9999 |
| QuarterCalendar.QuarterDatesTable | bse_core.py:79-89 | Q1..Q4 start on 1 Apr, 1 Jul, 1 Oct of fy-1 and 1 Jan of fy, and end on 30 Jun, 30 Sep, 31 Dec and 31 Mar |
| QuarterCalendar.QuarterSpansThreeMonths | bse_core.py:89 | A quarter ends on the last day of the third month; the day after its end is the start plus three months |
| QuarterCalendar.NextQuarter | bse_core.py:100-101 | The next quarter is in 1..4 and its linear index 4*fy+q is one more |
| QuarterCalendar.QuartersTile | bse_core.py:89-102 | The day after a quarter's end is the next quarter's start, including Q4 to Q1 of fy+1 |
| QuarterCalendar.FormatYmd | bse_core.py:90 | YYYYMMDD is eight digits that read back as the date |
| QuarterCalendar.GetQuarterDates | bse_core.py:75-90 | `get_quarter_dates`: the quarter's first and last day as YYYYMMDD strings, or the date error; its meaning is stated by `GetQuarterDatesSpec` |
| QuarterCalendar.GetQuarterDatesSpec | bse_core.py:75-90 | Succeeds exactly when the dates exist, with the same error otherwise; both strings read back as the start and end |
| QuarterCalendar.QuarterDatesExamples | bse_core.py:75-90 | Q3/Q4 of FY2024 and Q1 of FY2025 have their stated dates; quarter 5 is an error |
| Announcements.AbsoluteLink | bse_core.py:49-51 | A link is present and non-empty iff it was; the result starts with "http" and ends with the original; links already starting with "http", and missing or empty links, are kept |
| Announcements.AbsoluteLinkIdempotent | bse_core.py:49-51 | Making a link absolute twice is the same as once |
| Announcements.CutAtDot | bse_core.py:55-56 | The cut text has no '.', is a prefix, and is followed by '.' or the end |
| Announcements.ParseTimestamp | bse_core.py:57 | A parse succeeds only on the "YYYY-MM-DDTHH:MM:SS" shape with a valid date, and the date printed back is the text's first ten characters |
| Announcements.NormalizeDate | bse_core.py:53-60 | A missing date stays missing; the result is a prefix of the raw text; an unparsable text keeps its cut form |
| Announcements.NormalizeTimestamp | bse_core.py:53-58 | A timestamp with or without a fractional part becomes its YYYY-MM-DD date |
| Announcements.MatchesFilter | bse_core.py:40-45 | The optional lowered filter must occur in the lowered headline and description joined by a space; stated by `BuiltMembership` |
| Announcements.ToRecord | bse_core.py:47-70 | One record per kept item: config name, normalised date, headline, title and absolute link, no quarter; stated by `Built`, `BuiltMembership` and `BuiltUnfiltered` |
| Announcements.Built | bse_core.py:39-70 | At most one record per item; every record carries the config name and no quarter |
| Announcements.BuiltMembership | bse_core.py:40-70 | A record is built iff some item passes the filter and maps to it |
| Announcements.BuiltUnfiltered | bse_core.py:46-70 | Without a filter there is one record per item, in item order |
| Announcements.BuildRecords | bse_core.py:39-72 | The append loop computes exactly `Built` |
| Announcements.DocumentFrame.constructor | bse_core.py:72 | A new frame holds the records and no `Quarter_FY` column |
| BseCore.Stamp | bse_core.py:115-116 | Stamping keeps the length and sets quarter and fiscal year on every row, changing nothing else |
| BseCore.RunConfigs | bse_core.py:104-118 | Every row carries the target quarter; every request uses the window its lookahead flag selects; at most one request per config |
| BseCore.FirstProductive | bse_core.py:105-118 | Finds the first config of a name that returned rows; all earlier configs of that name returned nothing |
| BseCore.SeenIsRowNames | bse_core.py:114-118 | `seen_names` equals the set of config names in the rows |
| BseCore.SeenIffProductive | bse_core.py:114-118 | A name is seen iff some config of that name returned rows |
| BseCore.RowsPerName | bse_core.py:105-118 | The rows of a name are exactly the stamped rows of its first productive config, so at most one config per name contributes |
| BseCore.QueriedIff | bse_core.py:105-113 | Config i is requested iff no earlier same-named config returned rows |
| BseCore.SameNamePair | bse_core.py:105-118 | Of two same-named configs the second is requested only when the first returned nothing |
| BseCore.FetchQuarterFacts | bse_core.py:93-122 | An invalid quarter fails before any request; on success rows carry the target quarter and lookahead requests use the next quarter's window, others the target's |
| BseCore.FetchQuarterSpec | bse_core.py:93-122 | `get_quarter_data` as a value: both windows, then the config walk, or the first date error; its meaning is stated by `FetchQuarterFacts` |
| BseCore.QuarterRows | bse_core.py:93-122 | The rows `get_quarter_data` returns, or its error; stated by `QuarterRowsValid` and `QuarterFetcherStamps` |
| BseCore.LookaheadScenario | bse_core.py:100-113 | For Q3 with the two "results" configs the requests search Q4's window; the board-meeting config is sent only if the first returned nothing |
| BseCore.RunConfigLoop | bse_core.py:104-118 | The loop's `dfs` and `seen_names` are those of `RunConfigs` |
| BseCore.FetchQuarter | bse_core.py:93-122 | `get_quarter_data` returns the rows of `FetchQuarterSpec`, or its error |
| BseCore.QuarterRowsValid | bse_core.py:99 | A successful quarter fetch names a quarter in 1..4 |
| BseCore.AdvanceIsNextQuarter | bse_core.py:138-142 | The loop's advance is the calendar's next quarter |
| BseCore.Visited | bse_core.py:130-142 | The walk visits quarters with consecutive linear indices from the start, none past the end |
| BseCore.VisitedCount | bse_core.py:130-146 | From a start not past the end the walk visits exactly 4*(endFy-fy)+(endQ-q)+1 quarters, otherwise none |
| BseCore.RangeScenario | bse_core.py:130-142 | (3, 2024) to (4, 2025) visits six quarters in order |
| BseCore.QuarterFetcherStamps | bse_core.py:93-122 | The quarter fetch stamps every row with the quarter it was fetched for |
| BseCore.RangeSpec | bse_core.py:125-146 | A start past the end gives an empty result, not an error |
| BseCore.RangeInvalidStart | bse_core.py:132-133 | An invalid start quarter in a non-empty range is the InvalidQuarter error |
| BseCore.RangeIsFetchAll | bse_core.py:129-146 | The range result is the quarter results over the visited quarters, concatenated in order, stopping at the first error |
| BseCore.FetchAllStamps | bse_core.py:129-146 | Every row of a multi-quarter result is stamped with one of the quarters fetched |
| BseCore.RangeRowsInRange | bse_core.py:125-146 | Every row of a successful range fetch carries a valid quarter between start and end |
| BseCore.FetchRange | bse_core.py:125-146 | The `while` loop computes `RangeSpec` |
| BseCore.FetchRangeStep | bse_core.py:133-135 | One pass of the loop: a failing quarter is the result of the rest of the walk; otherwise the quarter was valid and its rows go after those gathered so far, before those of the following quarters |
| BseCore.RangeStep | bse_core.py:132-142 | For any per-quarter fetch, a quarter in range either ends the walk with its error or puts its rows between the rows before it and the walk from the next quarter |
| GenaiExtract.SpaceRun | genai_extract_results.py:25 | `\s*` takes a whitespace run that ends at a non-space or the end |
| GenaiExtract.OpenFenceAt | genai_extract_results.py:25 | `^```json\s*` matches only at a line start where "```" occurs, and ends after "```json" |
| GenaiExtract.CloseFenceAt | genai_extract_results.py:25 | `\s*```$` matches whitespace then "```" ending at a line end |
| GenaiExtract.MatchAt | genai_extract_results.py:25 | A match is non-empty and contains a "```" |
| GenaiExtract.Substitute | genai_extract_results.py:25 | `re.sub` of the fence pattern with "", scanning left to right and removing each match; stated by `SubstituteNoFence` and `FencedSubstitute` |
| GenaiExtract.CleanResponse | genai_extract_results.py:25 | Strip, then remove the fences; stated by `CleanUnfenced`, `CleanFenced` and `CleanExample` |
| GenaiExtract.SubstituteNoFence | genai_extract_results.py:25 | Where no "```" occurs the substitution copies the text |
| GenaiExtract.StripKeepsNoFence | genai_extract_results.py:25 | Trimming cannot create a "```" |
| GenaiExtract.CleanUnfenced | genai_extract_results.py:25 | A response without "```" is only trimmed |
| GenaiExtract.FencedSubstitute | genai_extract_results.py:25 | Removing the fences from "```json" + whitespace + body + whitespace + "```" leaves the body |
| GenaiExtract.CleanFenced | genai_extract_results.py:25 | A fenced JSON text surrounded by whitespace is cleaned to exactly the JSON text |
| GenaiExtract.CleanExample | genai_extract_results.py:25 | A concrete "```json\n{...}\n```" response is cleaned to its object text |
| GenaiExtract.MembersToRows | genai_extract_results.py:29 | One row per object member, in order: row i holds member i's key as `Field` and its value as `Value` |
| GenaiExtract.MembersRowsRoundTrip | genai_extract_results.py:29 | Members to rows and rows to members are inverse |
| GenaiExtract.JsonToRows | genai_extract_results.py:14-31 | Unparsable cleaned text is InvalidJson, non-object JSON is NotAnObject; otherwise the rows are the object's members in order |
| Helpers.DigitRun | streamlit_helpers.py:149 | The greedy `\d+` run is all digits and is followed by a non-digit or the end |
| Helpers.QuarterSortKey | streamlit_helpers.py:148-154 | A text not starting with "Q<digit> FY<digit>" gets (0, 0); the quarter part is one digit |
| Helpers.SortKeyOfLabel | streamlit_helpers.py:148-153 | The key of "Q{q} FY{fy}" followed by any text not starting with a digit is (fy, q) |
| Helpers.InsertByKey | streamlit_helpers.py:136-141 | Insertion keeps key order and adds exactly the element |
| Helpers.SortByKey | streamlit_helpers.py:136-141 | The result is in key order and a permutation of the input |
| Helpers.Distinct | streamlit_helpers.py:116-121 | Same elements, no duplicates |
| Helpers.DistinctFirstSeen | streamlit_helpers.py:116-121 | Elements come in the order of their first occurrence |
| Helpers.KeepIn | streamlit_helpers.py:123-133 | Keeps exactly the listed names that are present |
| Helpers.KeepInFirstSeen | streamlit_helpers.py:123-133 | Filtering keeps first-seen order |
| Helpers.UniqueConfigOrder | streamlit_helpers.py:116-121 | The loop yields each config name once, in first-seen order |
| Helpers.Matching | streamlit_helpers.py:127-133 | Exactly the records with that config and label |
| Helpers.MatchingAppend | streamlit_helpers.py:127-133 | Matching distributes over concatenation, so record order is kept |
| Helpers.Labels | streamlit_helpers.py:125 | One `Quarter_FY` label per record, in order |
| Helpers.QuarterLabel | streamlit_helpers.py:125 | The `Quarter_FY` text "Q{quarter} FY{fiscal_year}"; its key and its split are stated by `SortKeyOfLabel` and `SplitQuarterLabel` |
| Helpers.PivotSpec | streamlit_helpers.py:113-141 | The pivot table as a value: rows, sorted columns and cells; stated by `PivotEmpty`, `PivotRows`, `PivotColumns` and `PivotCells` |
| Helpers.PivotEmpty | streamlit_helpers.py:113-114 | An empty frame gives an empty table |
| Helpers.PivotRows | streamlit_helpers.py:116-133 | Rows are the config names that have records, each once, in first-seen config order |
| Helpers.PivotRowsIgnoreRecordOrder | streamlit_helpers.py:116-133 | The rows do not depend on the records' order |
| Helpers.PivotColumns | streamlit_helpers.py:125-141 | Columns are exactly the labels that occur, each once, in ascending (fy, q) order |
| Helpers.SortKeepsDistinct | streamlit_helpers.py:136-141 | Sorting keeps a duplicate-free column list duplicate-free |
| Helpers.PivotCells | streamlit_helpers.py:127-133 | A cell is "" iff no record has that config and label; otherwise its Link and Headline lists are those records', in record order |
| Helpers.PivotAnnouncementLinks | streamlit_helpers.py:108-143 | Returns the pivot over the distinct config names; a non-empty frame gains its `Quarter_FY` column in place; rows unchanged |
| Helpers.SplitLabel | streamlit_helpers.py:76 | Exactly two whitespace-separated tokens unpack; fewer or more is the matching error |
| Helpers.SplitQuarterLabel | streamlit_helpers.py:76 | "Q{q} FY{fy}" splits into "Q{q}" and "FY{fy}" |
| Helpers.ExtractFromLink | streamlit_helpers.py:71-102 | A bad label fails first; a failed download is DownloadFailed; success has a `Field` column and a value column named after the label, holding the model's converted answer |
| AppStateStore.FillMissingSpec | streamlit_app_state.py:20-25 | Only absent keys get their defaults; present values are untouched; no other key appears |
| AppStateStore.ResetKeysSpec | streamlit_app_state.py:34-36 | A reset sets each listed key to its default and leaves every other key as it was |
| AppStateStore.ResetIdempotent | streamlit_app_state.py:29-68 | Resetting twice equals resetting once |
| AppStateStore.ResetKeysNested | streamlit_app_state.py:7-66 | Extracted keys are within the document keys, which are within all keys; the company keys and the extraction inputs are outside the narrower sets |
| AppStateStore.ResetAbsorbs | streamlit_app_state.py:29-68 | After a wider reset a narrower one changes nothing |
| AppStateStore.KeyOfInjective | streamlit_app_state.py:79-158 | Distinct properties use distinct keys, and every property's key is one of the ten defaults |
| AppStateStore.SetFieldKeepsOthers | streamlit_app_state.py:79-158 | Writing one property's key leaves what every other property reads unchanged |
| AppStateStore.AppState.constructor | streamlit_app_state.py:20-25 | The session is the existing one with missing defaults filled in |
| AppStateStore.AppState.ResetListed | streamlit_app_state.py:34-36 | The loop resets exactly the listed keys |
| AppStateStore.AppState.ResetAll | streamlit_app_state.py:29-36 | All ten keys are reset |
| AppStateStore.AppState.ResetBseDocumentsAndExtractedResults | streamlit_app_state.py:39-53 | Exactly the seven listed keys are reset |
| AppStateStore.AppState.ResetExtractedResults | streamlit_app_state.py:56-68 | Exactly the three listed keys are reset |
| AppStateStore.AppState.Set | streamlit_app_state.py:75-76 | Writes one key; `get` then returns the value |
| AppStateStore.AppState.SetField | streamlit_app_state.py:79-158 | A property setter writes its key and no other; the getter then returns the value |
| App.AfterLast | streamlit_app.py:40 | The last `split("(")` piece holds no '(' and is no longer than the text |
| App.AfterLastOf | streamlit_app.py:40 | After a last '(' the piece is exactly the tail |
| App.StripChar | streamlit_app.py:40 | `strip(")")` is the slice of the text with only ')' before and after it, and neither starts nor ends with ')' |
| App.ScripCodeOf | streamlit_app.py:40 | The scrip code read back from a dropdown entry; stated by `ScripCodeRoundTrip` |
| App.ScripCodeRoundTrip | streamlit_app.py:36-40 | A code without parentheses parses back out of "{name} ({code})" for any name |
| App.BeforeFirst | streamlit_app.py:41 | The first `split(" ")` piece is a prefix without spaces, followed by a space or the end |
| App.BeforeFirstOf | streamlit_app.py:41 | A space-free word before a space or the end is the first piece |
| App.CompanyNameOf | streamlit_app.py:41 | The company name read back from a dropdown entry; stated by `CompanyNameOfLabel` |
| App.CompanyNameOfLabel | streamlit_app.py:36-41 | The company name kept is the first word of the option's name |
| App.SearchCompany | streamlit_app.py:25-30 | A non-empty search resets everything and stores the matches for the lowered input; an empty one changes nothing |
| App.SelectCompany | streamlit_app.py:35-41 | With matches, the selection's scrip code and company name are stored; otherwise nothing changes |
| App.AllowedRangeBounded | streamlit_app.py:59-66 | An allowed range of valid quarters walks at most twenty quarters |
| App.FetchDocuments | streamlit_app.py:59-69 | More than five fiscal years is refused and changes nothing; otherwise document keys are reset and the fetched rows stored in a new frame, or the walk's error reported |
| App.ShowDocuments | streamlit_app.py:71-76 | A non-empty frame is pivoted, gains `Quarter_FY`, and the table is stored; otherwise nothing changes |
| App.QuarterChoices | streamlit_app.py:87 | The quarter choices are the pivot's labels in descending key order |
| App.ChooseExtraction | streamlit_app.py:87-88 | The chosen quarter and type are stored; nothing else changes |
| App.Candidates | streamlit_app.py:144-147 | A record is a candidate iff its `Quarter_FY` is the selected label and its lowered Config is "results" |
| App.CandidatesAreResultsCell | streamlit_app.py:144-147 | With "Results" the only results-like name, the candidates are the pivot's Results cell for that quarter, in order |
| App.Pick | streamlit_app.py:151 | `iloc` succeeds iff the count is within ±length, giving the element from the front or back |
| App.ExtractUi | streamlit_app.py:141-166 | `extract_results_from_pdf_ui` as a value: the candidate filter, then the pick and extraction, with the new session; stated by `ExtractUiWrites` and `ExtractUiPicksCount` |
| App.ExtractCandidate | streamlit_app.py:151-162 | The pick by count, the stored link and the stored extraction for a non-empty candidate list; `ExtractFromCandidates` computes it |
| App.ExtractUiWrites | streamlit_app.py:141-166 | Only the link and results keys are ever written; with no candidates or on an error nothing is |
| App.ExtractUiPicksCount | streamlit_app.py:149-155 | No candidates gives NoCandidates; a count past them is IndexOutOfRange; otherwise the link of the candidate at the count is stored |
| App.ExtractResultsFromPdfUi | streamlit_app.py:141-166 | The handler's outcome and new session are those of `ExtractUi` |
| App.ExtractFromCandidates | streamlit_app.py:151-162 | Picking, storing the link and storing the extraction are those of `ExtractCandidate` |
| App.ExtractButton | streamlit_app.py:99-106 | Extracted keys are reset; without an API key nothing more; otherwise the count is 0 and the handler runs; the count ends at 0 |
| App.TryNextButton | streamlit_app.py:118-123 | A non-integer count raises with the session unchanged; otherwise the count goes up by exactly one and the handler runs |

## Left out

- The HTTP calls. The exchange request of bse_core.py:17-37 is an adapter parameter whose failures are not modelled. `search_bse_company` (bse_core.py:149-182), a network call plus HTML parsing, is a parameter of `App.SearchCompany`. The PDF download is a `Downloader` parameter.
- The language-model calls (`get_gemini_client`, `get_extracted_results`) are an `Extractor` parameter. extract_results_prompt.py holds only prompt text and is not part of this model.
- `json.loads` is a `JsonParser` parameter; JSON syntax is not modelled.
- `pd.to_numeric` coercion of the extracted column (streamlit_helpers.py:100) and its floating-point numerics are not modelled.
- The `fillna(0).sum() == 0` emptiness test that decides whether the "try next" button is shown (streamlit_app.py:113-117) is floating-point. `App.TryNextButton` models a press of the button whenever it is shown.
- Streamlit rendering: widgets, messages, spinners, `st.rerun`, the CSV and link download buttons, `st.cache_data` wrappers and `render_pivot_html_with_icons`. Widgets supply parameters instead; caching does not change results.
- The page flow of `main_app` (which sections are drawn) is not modelled; each handler is a method of its own.
- `Config` becoming a pandas `Categorical` (streamlit_helpers.py:123) is not modelled as a column change. A record whose name is not among the configs would get a NaN category and drop out of the pivot; in the model it drops out of the rows, but its `Quarter_FY` label is still a column. The model's rows are the config names that have records, so pandas' rows for categories without records are not modelled either.
- Helpers.PivotColumns: columns with equal sort keys (such as labels that do not match the pattern) are left in the order the model's insertion sort gives them; pandas' order for ties is not modelled.
- Character classes are ASCII: `\d`, `\s`, `str.isspace` and `str.lower` on other Unicode characters are not modelled.
- `datetime.strptime` is modelled strictly on two-digit fields; its acceptance of one-digit fields is not modelled. `strftime("%Y")` is written with four digits; the unpadded form some platforms write for years below 1000 is not modelled.
- `__main__` blocks are not modelled.
- App.AfterLast: its contract states only that the piece holds no separator and is not longer than the text; what the piece is, is stated by `App.AfterLastOf` for texts containing the separator.
- App.ExtractResultsFromPdfUi: a `Quarter_FY` column whose length differs from the frame's cannot arise from the pivot; the model reports it as `NoQuarterColumn`.
- App.ExtractResultsFromPdfUi: `extract_type` is passed to the extractor as the text of the stored value ("None" when unset), as `str()` would print it.
