/**
 * The handlers of the dashboard page (streamlit_app.py): reading the scrip code and company
 * name back out of the chosen dropdown entry, the five-fiscal-year guard on a fetch, the
 * pivot shown after a fetch, and the choice of the filing to extract with its retry counter.
 * Widgets only supply values here: a button press is a method call, a dropdown choice a
 * parameter.
 */
module App {
  import opened Wrappers
  import opened Strings
  import opened Announcements
  import opened BseCore
  import opened Helpers
  import opened AppStateStore

  // ---------------------------------------------------------------------------------------
  // Company selection (streamlit_app.py:25-41)
  // ---------------------------------------------------------------------------------------

  /** A dropdown entry, f"{name} ({scrip_code})" (streamlit_app.py:36). */
  function OptionLabel(m: CompanyMatch): string {
    m.name + " (" + m.scripCode + ")"
  }

  /** `s.split(sep)[-1]`: what follows the last `sep`, or all of `s` when there is none. */
  function AfterLast(s: string, sep: char): (r: string)
    ensures sep !in r && |r| <= |s|
  {
    if s == [] || s[|s| - 1] == sep then []
    else AfterLast(s[..|s| - 1], sep) + [s[|s| - 1]]
  }

  lemma {:induction false} AfterLastOf(prefix: string, sep: char, tail: string)
    requires sep !in tail
    ensures AfterLast(prefix + [sep] + tail, sep) == tail
    decreases |tail|
  {
    var s := prefix + [sep] + tail;
    if tail != [] {
      assert s[..|s| - 1] == prefix + [sep] + tail[..|tail| - 1];
      AfterLastOf(prefix, sep, tail[..|tail| - 1]);
      assert tail[..|tail| - 1] + [tail[|tail| - 1]] == tail;
    }
  }

  /** `s.strip(c)` for a single character: the slice of `s` left once the runs of `c` at both
      ends are removed, so that it neither starts nor ends with `c`. */
  function StripChar(s: string, c: char): (r: string)
    ensures exists a, b :: (0 <= a <= b <= |s| && r == s[a..b]
      && (forall k :: 0 <= k < a ==> s[k] == c) && (forall k :: b <= k < |s| ==> s[k] == c))
    ensures r == [] || (r[0] != c && r[|r| - 1] != c)
  {
    var front := DropLeading(s, c);
    var r := DropTrailing(front, c);
    TrimmedSlice(s, c, front, r);
    r
  }

  /** A prefix, free of trailing `c`s, of a suffix, free of leading `c`s, is a slice with only
      `c` around it. */
  lemma TrimmedSlice(s: string, c: char, front: string, r: string)
    requires |front| <= |s| && front == s[|s| - |front|..]
    requires forall k :: 0 <= k < |s| - |front| ==> s[k] == c
    requires |r| <= |front| && r == front[..|r|]
    requires forall k :: |r| <= k < |front| ==> front[k] == c
    ensures exists a, b :: (0 <= a <= b <= |s| && r == s[a..b]
      && (forall k :: 0 <= k < a ==> s[k] == c) && (forall k :: b <= k < |s| ==> s[k] == c))
  {
    var a := |s| - |front|;
    var b := a + |r|;
    assert r == s[a..b];
    forall k | b <= k < |s| ensures s[k] == c {
      assert s[k] == front[k - a];
    }
  }

  /** `s.lstrip(c)`: the suffix of `s` after its leading run of `c`. */
  function DropLeading(s: string, c: char): (r: string)
    ensures r == [] || r[0] != c
    ensures |r| <= |s| && r == s[|s| - |r|..]
    ensures forall k :: 0 <= k < |s| - |r| ==> s[k] == c
  {
    if s != [] && s[0] == c then DropLeading(s[1..], c) else s
  }

  /** `s.rstrip(c)`: the prefix of `s` before its trailing run of `c`. */
  function DropTrailing(s: string, c: char): (r: string)
    ensures r == [] || r[|r| - 1] != c
    ensures |r| <= |s| && r == s[..|r|]
    ensures forall k :: |r| <= k < |s| ==> s[k] == c
  {
    if s != [] && s[|s| - 1] == c then DropTrailing(s[..|s| - 1], c) else s
  }

  /** `selection.split("(")[-1].strip(")")` (streamlit_app.py:40). */
  function ScripCodeOf(selection: string): string {
    StripChar(AfterLast(selection, '('), ')')
  }

  /** The code reads back out of its dropdown entry whenever it holds no parenthesis, whatever
      the company name holds. */
  lemma ScripCodeRoundTrip(m: CompanyMatch)
    requires '(' !in m.scripCode && ')' !in m.scripCode
    ensures ScripCodeOf(OptionLabel(m)) == m.scripCode
  {
    var code := m.scripCode;
    assert OptionLabel(m) == (m.name + " ") + ['('] + (code + ")");
    AfterLastOf(m.name + " ", '(', code + ")");
    StripClosing(code);
  }

  lemma StripClosing(code: string)
    requires ')' !in code
    ensures StripChar(code + ")", ')') == code
  {
    var s := code + ")";
    if code == [] {
      assert DropLeading(s, ')') == [];
    } else {
      assert s[0] == code[0] && code[0] in code && code[|code| - 1] in code;
      assert DropLeading(s, ')') == s;
      assert s[..|s| - 1] == code;
      assert DropTrailing(s, ')') == DropTrailing(code, ')') == code;
    }
  }

  /** `s.split(" ")[0]`: the text before the first space. */
  function BeforeFirst(s: string, sep: char): (r: string)
    ensures |r| <= |s| && r == s[..|r|] && sep !in r
    ensures |r| < |s| ==> s[|r|] == sep
  {
    if s == [] || s[0] == sep then [] else [s[0]] + BeforeFirst(s[1..], sep)
  }

  /** `selection.split(" ")[0].strip()` (streamlit_app.py:41). */
  function CompanyNameOf(selection: string): string {
    Strip(BeforeFirst(selection, ' '))
  }

  lemma {:induction false} BeforeFirstOf(w: string, sep: char, rest: string)
    requires sep !in w
    requires rest == [] || rest[0] == sep
    ensures BeforeFirst(w + rest, sep) == w
  {
    if w != [] {
      assert (w + rest)[1..] == w[1..] + rest;
      BeforeFirstOf(w[1..], sep, rest);
    } else {
      assert w + rest == rest;
    }
  }

  /** The company name kept is the first word of the name in the dropdown entry. */
  lemma CompanyNameOfLabel(word: string, rest: string, code: string)
    requires word != [] && forall i :: 0 <= i < |word| ==> !IsSpace(word[i])
    requires rest == [] || rest[0] == ' '
    ensures CompanyNameOf(OptionLabel(CompanyMatch(word + rest, code))) == word
  {
    var tail := rest + " (" + code + ")";
    LabelOfName(word, rest, code);
    assert ' ' !in word by {
      assert forall i :: 0 <= i < |word| ==> word[i] != ' ';
    }
    BeforeFirstOf(word, ' ', tail);
    StripWord(word);
  }

  /** A dropdown entry whose name is a word and a rest is that word followed by the rest of it. */
  lemma LabelOfName(word: string, rest: string, code: string)
    ensures OptionLabel(CompanyMatch(word + rest, code)) == word + (rest + " (" + code + ")")
  {
  }

  /** Stripping a word with no whitespace at either end leaves it as it is. */
  lemma StripWord(word: string)
    requires word != [] && !IsSpace(word[0]) && !IsSpace(word[|word| - 1])
    ensures Strip(word) == word
  {
    StripSurrounded([], word, []);
    assert [] + word + [] == word;
  }

  /** The search button: a new search clears the whole session, then stores the matches for the
      lowered input (streamlit_app.py:25-30); an empty input does nothing. */
  method SearchCompany(state: AppState, input: string, search: string -> seq<CompanyMatch>)
    modifies state
    ensures input == [] ==> state.session == old(state.session)
    ensures input != [] ==>
      state.session == ResetKeys(old(state.session), DefaultKeys)["company_matches" := Matches(search(LowerStr(input)))]
  {
    if input != [] {
      state.ResetAll();
      state.SetField(CompanyMatches, Matches(search(LowerStr(input))));
    }
  }

  /** `if app_state.company_matches:` — a non-empty list of matches. */
  predicate HasMatches(v: Value) {
    v.Matches? && v.matches != []
  }

  /** A dropdown choice: the session takes the scrip code and company name it shows
      (streamlit_app.py:35-41); without matches there is no dropdown. */
  method SelectCompany(state: AppState, selection: string)
    modifies state
    ensures !HasMatches(old(state.Get("company_matches"))) ==> state.session == old(state.session)
    ensures HasMatches(old(state.Get("company_matches"))) ==>
      state.session == old(state.session)["scrip_code" := Text(ScripCodeOf(selection))]
                                         ["company_name" := Text(CompanyNameOf(selection))]
  {
    assert KeyOf(CompanyMatches) == "company_matches";
    assert KeyOf(ScripCode) == "scrip_code" && KeyOf(CompanyName) == "company_name";
    var matches := state.GetField(CompanyMatches);
    if HasMatches(matches) {
      var code, name := ScripCodeOf(selection), CompanyNameOf(selection);
      state.SetField(ScripCode, Text(code));
      state.SetField(CompanyName, Text(name));
    }
  }

  // ---------------------------------------------------------------------------------------
  // Fetching documents (streamlit_app.py:58-76)
  // ---------------------------------------------------------------------------------------

  /** At most five fiscal years, counting both ends (streamlit_app.py:59-60). */
  predicate FetchAllowed(startFy: int, endFy: int) {
    endFy - startFy + 1 <= 5
  }

  /** An allowed range of valid quarters spans at most twenty quarters, so a fetch makes at
      most twenty quarter walks. */
  lemma AllowedRangeBounded(startQ: int, startFy: int, endQ: int, endFy: int)
    requires 1 <= startQ <= 4 && 1 <= endQ <= 4
    requires FetchAllowed(startFy, endFy)
    ensures |Visited(startQ, startFy, endQ, endFy)| <= 20
  {
    VisitedCount(startQ, startFy, endQ, endFy);
  }

  /** `str()` of a session value that should hold text. */
  function TextOf(v: Value): string {
    if v.Text? then v.text else "None"
  }

  datatype FetchOutcome = RangeTooLong | Fetched | FetchFailed(error: QuarterCalendar.CalendarError)

  /** The fetch button (streamlit_app.py:59-69): refused for more than five fiscal years;
      otherwise the documents and everything after them are reset and the fetched frame is
      stored. A failing walk leaves the session reset. */
  method FetchDocuments(state: AppState, startQ: int, startFy: int, endQ: int, endFy: int,
                        configs: seq<Config>, adapter: Adapter)
    returns (outcome: FetchOutcome)
    modifies state
    ensures !FetchAllowed(startFy, endFy) <==> outcome == RangeTooLong
    ensures outcome == RangeTooLong ==> state.session == old(state.session)
    ensures var walk := RangeSpec(startQ, startFy, endQ, endFy,
                                  QuarterFetcher(TextOf(old(state.Get("scrip_code"))), configs, adapter));
      && (outcome.FetchFailed? <==> FetchAllowed(startFy, endFy) && walk.Failure?)
      && (outcome.FetchFailed? ==> outcome.error == walk.error && state.session == ResetKeys(old(state.session), BseKeys))
      && (outcome == Fetched ==>
            var docs := state.Get("bse_documents_df");
            && docs.Documents? && fresh(docs.frame)
            && docs.frame.records == walk.value && docs.frame.quarterFy.None?
            && state.session == ResetKeys(old(state.session), BseKeys)["bse_documents_df" := docs])
  {
    if !FetchAllowed(startFy, endFy) {
      return RangeTooLong;
    }
    var scrip := TextOf(state.GetField(ScripCode));
    state.ResetBseDocumentsAndExtractedResults();
    var rows := FetchRange(scrip, startQ, startFy, endQ, endFy, configs, adapter);
    if rows.Failure? {
      return FetchFailed(rows.error);
    }
    var frame := new DocumentFrame(rows.value);
    state.Set("bse_documents_df", Documents(frame));
    return Fetched;
  }

  /** The documents frame a session value holds, if any. */
  function FrameOf(v: Value): set<DocumentFrame> {
    if v.Documents? then {v.frame} else {}
  }

  /** After a fetch (streamlit_app.py:71-76): a non-empty frame is pivoted, which adds its
      `Quarter_FY` column in place, and the table is stored. */
  method ShowDocuments(state: AppState, configs: seq<Config>) returns (shown: bool)
    modifies state, FrameOf(state.Get("bse_documents_df"))
    ensures var docs := old(state.Get("bse_documents_df"));
      && (shown <==> docs.Documents? && old(docs.frame.records) != [])
      && (!shown ==> state.session == old(state.session))
      && (shown ==>
            && docs.frame.records == old(docs.frame.records)
            && docs.frame.quarterFy == Some(Labels(docs.frame.records))
            && state.session == old(state.session)["bse_documents_pivot_df" :=
                 Pivot(PivotSpec(docs.frame.records, Distinct(ConfigNames(configs))))])
  {
    var docs := state.GetField(BseDocumentsDf);
    if !docs.Documents? || docs.frame.records == [] {
      return false;
    }
    var frame := docs.frame;
    var table := PivotAnnouncementLinks(frame, configs);
    ghost var records, quarterFy := frame.records, frame.quarterFy;
    state.Set("bse_documents_pivot_df", Pivot(table));
    assert frame.records == records && frame.quarterFy == quarterFy;
    return true;
  }

  /** The quarter dropdown lists the pivot's quarter labels by descending sort key
      (streamlit_app.py:87). */
  function QuarterChoices(columns: seq<string>): (choices: seq<string>)
    ensures SortedByKey(choices, QuarterSortKey, true)
    ensures multiset(choices) == multiset(columns)
  {
    SortByKey(columns, QuarterSortKey, true)
  }

  // ---------------------------------------------------------------------------------------
  // Choosing the filing to extract (streamlit_app.py:99-166)
  // ---------------------------------------------------------------------------------------

  /** The two dropdowns of streamlit_app.py:87-88 write the chosen quarter label (None when the
      pivot offers no quarter) and the kind of results; nothing else changes. */
  method ChooseExtraction(state: AppState, quarter: Option<string>, kind: string)
    modifies state
    ensures state.session == old(state.session)["extract_selected_quarter" := if quarter.Some? then Text(quarter.value) else Null]
                                               ["extract_type" := Text(kind)]
    ensures SelectedLabel(state.Get("extract_selected_quarter")) == quarter
  {
    state.SetField(ExtractSelectedQuarter, if quarter.Some? then Text(quarter.value) else Null);
    state.SetField(ExtractType, Text(kind));
  }

  /** The label the session holds as the selected quarter, if any. */
  function SelectedLabel(v: Value): Option<string> {
    if v.Text? then Some(v.text) else None
  }

  /** The rows whose `Quarter_FY` is the selected label and whose lowered `Config` is
      "results", in frame order (streamlit_app.py:144-147). No label selected matches nothing. */
  function Candidates(records: seq<Record>, quarterFy: seq<string>, selected: Option<string>): (c: seq<Record>)
    requires |quarterFy| == |records|
    ensures selected.None? ==> c == []
    ensures forall r :: r in c <==>
      exists i :: 0 <= i < |records| && records[i] == r && selected == Some(quarterFy[i]) && LowerStr(r.config) == "results"
  {
    if records == [] then []
    else
      var n := |records| - 1;
      var prev := Candidates(records[..n], quarterFy[..n], selected);
      assert forall i :: 0 <= i < n ==> records[..n][i] == records[i] && quarterFy[..n][i] == quarterFy[i];
      if selected == Some(quarterFy[n]) && LowerStr(records[n].config) == "results" then prev + [records[n]] else prev
  }

  /** Over the labels the pivot writes, and when "Results" is the only config name that lowers
      to "results", the candidates are exactly the records of the pivot's Results cell for the
      selected quarter, in the same order. */
  lemma {:induction false} CandidatesAreResultsCell(records: seq<Record>, selected: string)
    requires forall r :: r in records && LowerStr(r.config) == "results" ==> r.config == "Results"
    ensures Candidates(records, Labels(records), Some(selected)) == Matching(records, "Results", selected)
  {
    if records != [] {
      var n := |records| - 1;
      assert Labels(records)[..n] == Labels(records[..n]);
      assert LowerStr("Results") == "results";
      CandidatesAreResultsCell(records[..n], selected);
    }
  }

  datatype PickError = PickIndexError

  /** `df_filtered.iloc[count]`: from the front for a non-negative count, from the back for a
      negative one, an IndexError past either end. */
  function Pick(candidates: seq<Record>, count: int): (r: Result<Record, PickError>)
    ensures r.Success? <==> -|candidates| <= count < |candidates|
    ensures 0 <= count < |candidates| ==> r == Success(candidates[count])
    ensures -|candidates| <= count < 0 ==> r == Success(candidates[|candidates| + count])
  {
    if 0 <= count < |candidates| then Success(candidates[count])
    else if -|candidates| <= count < 0 then Success(candidates[|candidates| + count])
    else Failure(PickIndexError)
  }


  datatype UiOutcome = NoCandidates | NoLink | ResultsExtracted | ExtractionFailed

  /** Raised out of `extract_results_from_pdf_ui`: no documents frame or `Quarter_FY` column,
      a link count that is not an integer, or an index past the candidates. */
  datatype UiError = NoDocuments | NoQuarterColumn | CountNotInteger | IndexOutOfRange

  /** A link cell as a session value. */
  function LinkValue(link: Option<string>): Value {
    if link.Some? then Text(link.value) else Null
  }

  /** What the documents entry of the session shows: the frame's rows and `Quarter_FY` column. */
  function FrameView(v: Value): Option<(seq<Record>, Option<seq<string>>)>
    reads FrameOf(v)
  {
    if v.Documents? then Some((v.frame.records, v.frame.quarterFy)) else None
  }

  /** `extract_results_from_pdf_ui` (streamlit_app.py:141-166) as the outcome and the new
      session, given the documents frame's contents. */
  function ExtractUi(session: map<string, Value>, frame: Option<(seq<Record>, Option<seq<string>>)>,
                     apiKey: string, extractor: ResultsExtractor): (Result<UiOutcome, UiError>, map<string, Value>)
  {
    if frame.None? then (Failure(NoDocuments), session)
    else if frame.value.1.None? || |frame.value.1.value| != |frame.value.0| then (Failure(NoQuarterColumn), session)
    else
      var selected := SelectedLabel(Lookup(session, "extract_selected_quarter"));
      var candidates := Candidates(frame.value.0, frame.value.1.value, selected);
      if candidates == [] then (Success(NoCandidates), session)
      else ExtractCandidate(session, selected.value, candidates, apiKey, extractor)
  }

  /** streamlit_app.py:151-162: pick the candidate at the link count, record its link and, when
      there is one, store what the extraction gives (None when it raises). */
  function ExtractCandidate(session: map<string, Value>, text: string, candidates: seq<Record>,
                            apiKey: string, extractor: ResultsExtractor): (Result<UiOutcome, UiError>, map<string, Value>)
  {
    var count := Lookup(session, "extract_link_count");
    if !count.Count? then (Failure(CountNotInteger), session)
    else match Pick(candidates, count.n)
      case Failure(_) => (Failure(IndexOutOfRange), session)
      case Success(doc) =>
        var picked := session["extract_pdf_link" := LinkValue(doc.link)];
        if !Truthy(doc.link) then (Success(NoLink), picked)
        else
          match extractor(text, TextOf(Lookup(session, "extract_type")), doc.link.value, apiKey)
          case Success(results) => (Success(ResultsExtracted), picked["extracted_results" := Extracted(results)])
          case Failure(_) => (Success(ExtractionFailed), picked["extracted_results" := Null])
  }

  /** Only the picked link and the extracted results are ever written; with no candidate nothing
      is, and an index past the candidates is raised before anything is. */
  lemma ExtractUiWrites(session: map<string, Value>, frame: Option<(seq<Record>, Option<seq<string>>)>,
                        apiKey: string, extractor: ResultsExtractor)
    ensures var (r, after) := ExtractUi(session, frame, apiKey, extractor);
      && after.Keys == session.Keys + (if r.Success? && r.value != NoCandidates then {"extract_pdf_link"} else {})
                                    + (if r.Success? && r.value in {ResultsExtracted, ExtractionFailed} then {"extracted_results"} else {})
      && (forall k :: k in session && k != "extract_pdf_link" && k != "extracted_results" ==> after[k] == session[k])
      && (r.Failure? || r == Success(NoCandidates) ==> after == session)
  {
  }

  /** The document picked is the candidate at the link count, and the count decides an
      IndexError: a count past the candidates raises it. */
  lemma ExtractUiPicksCount(session: map<string, Value>, records: seq<Record>, quarterFy: seq<string>,
                            apiKey: string, extractor: ResultsExtractor, n: nat)
    requires |quarterFy| == |records|
    requires Lookup(session, "extract_link_count") == Count(n)
    ensures var candidates := Candidates(records, quarterFy, SelectedLabel(Lookup(session, "extract_selected_quarter")));
      var (r, after) := ExtractUi(session, Some((records, Some(quarterFy))), apiKey, extractor);
      && (candidates == [] <==> r == Success(NoCandidates))
      && (candidates != [] && n >= |candidates| <==> r == Failure(IndexOutOfRange))
      && (candidates != [] && n < |candidates| ==>
            r.Success? && after["extract_pdf_link"] == LinkValue(candidates[n].link))
  {
  }

  /** `extract_results_from_pdf_ui` as a step on the session. */
  method ExtractResultsFromPdfUi(state: AppState, apiKey: string, extractor: ResultsExtractor)
    returns (r: Result<UiOutcome, UiError>)
    modifies state
    ensures (r, state.session) ==
      ExtractUi(old(state.session), old(FrameView(state.Get("bse_documents_df"))), apiKey, extractor)
  {
    var docs := state.GetField(BseDocumentsDf);
    if !docs.Documents? {
      return Failure(NoDocuments);
    }
    var frame := docs.frame;
    if frame.quarterFy.None? || |frame.quarterFy.value| != |frame.records| {
      return Failure(NoQuarterColumn);
    }
    var selected := SelectedLabel(state.GetField(ExtractSelectedQuarter));
    var candidates := Candidates(frame.records, frame.quarterFy.value, selected);
    if candidates == [] {
      return Success(NoCandidates);
    }
    r := ExtractFromCandidates(state, selected.value, candidates, apiKey, extractor);
  }

  /** streamlit_app.py:151-162 on the session, once there are candidates. */
  method ExtractFromCandidates(state: AppState, text: string, candidates: seq<Record>,
                               apiKey: string, extractor: ResultsExtractor)
    returns (r: Result<UiOutcome, UiError>)
    modifies state
    ensures (r, state.session) == ExtractCandidate(old(state.session), text, candidates, apiKey, extractor)
  {
    var count := state.GetField(ExtractLinkCount);
    if !count.Count? {
      return Failure(CountNotInteger);
    }
    var pick := Pick(candidates, count.n);
    if pick.Failure? {
      return Failure(IndexOutOfRange);
    }
    var doc := pick.value;
    var kind := TextOf(state.GetField(ExtractType));
    state.SetField(ExtractPdfLink, LinkValue(doc.link));
    if !Truthy(doc.link) {
      return Success(NoLink);
    }
    var results := extractor(text, kind, doc.link.value, apiKey);
    if results.Success? {
      state.SetField(ExtractedResults, Extracted(results.value));
      return Success(ResultsExtracted);
    } else {
      state.SetField(ExtractedResults, Null);
      return Success(ExtractionFailed);
    }
  }

  /** The Extract button (streamlit_app.py:100-106): clear the previous extraction; without an
      API key stop there, otherwise start again from the first candidate. */
  method ExtractButton(state: AppState, apiKey: string, extractor: ResultsExtractor)
    returns (r: Option<Result<UiOutcome, UiError>>)
    modifies state
    ensures apiKey == "" ==> r.None? && state.session == ResetKeys(old(state.session), ExtractedKeys)
    ensures apiKey != "" ==>
      var reset := ResetKeys(old(state.session), ExtractedKeys)["extract_link_count" := Count(0)];
      r.Some? && (r.value, state.session) == ExtractUi(reset, old(FrameView(state.Get("bse_documents_df"))), apiKey, extractor)
    ensures state.Get("extract_link_count") == Count(0)
  {
    ghost var frame := FrameView(state.Get("bse_documents_df"));
    state.ResetExtractedResults();
    ResetKeysSpec(old(state.session), ExtractedKeys, "extract_link_count");
    ResetKeysSpec(old(state.session), ExtractedKeys, "bse_documents_df");
    if apiKey == "" {
      return None;
    }
    state.Set("extract_link_count", Count(0));
    ghost var reset := ResetKeys(old(state.session), ExtractedKeys)["extract_link_count" := Count(0)];
    assert state.session == reset;
    assert FrameView(state.Get("bse_documents_df")) == frame;
    var outcome := ExtractResultsFromPdfUi(state, apiKey, extractor);
    ExtractUiWrites(reset, frame, apiKey, extractor);
    return Some(outcome);
  }

  /** The "try next PDF" button (streamlit_app.py:118-123): move the count on by one and pick
      again. A count that is not an integer raises before anything changes. */
  method TryNextButton(state: AppState, apiKey: string, extractor: ResultsExtractor)
    returns (r: Result<UiOutcome, UiError>)
    modifies state
    ensures !old(state.Get("extract_link_count")).Count? ==>
      r == Failure(CountNotInteger) && state.session == old(state.session)
    ensures old(state.Get("extract_link_count")).Count? ==>
      var n := old(state.Get("extract_link_count")).n;
      && (r, state.session) == ExtractUi(old(state.session)["extract_link_count" := Count(n + 1)],
                                         old(FrameView(state.Get("bse_documents_df"))), apiKey, extractor)
      && state.Get("extract_link_count") == Count(n + 1)
  {
    var count := state.GetField(ExtractLinkCount);
    if !count.Count? {
      return Failure(CountNotInteger);
    }
    state.SetField(ExtractLinkCount, Count(count.n + 1));
    r := ExtractResultsFromPdfUi(state, apiKey, extractor);
    ExtractUiWrites(old(state.session)["extract_link_count" := Count(count.n + 1)],
                    old(FrameView(state.Get("bse_documents_df"))), apiKey, extractor);
  }
}
