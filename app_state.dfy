/**
 * The dashboard's session store (streamlit_app_state.py): ten keys with defaults, filled in
 * when missing, three resets over nested key lists, and typed accessors over `get`/`set`.
 */
module AppStateStore {
  import opened Announcements
  import opened Helpers

  /** One search hit of `search_bse_company`. */
  datatype CompanyMatch = CompanyMatch(name: string, scripCode: string)

  /** What a session key can hold. */
  datatype Value =
    | Null
    | Text(text: string)
    | Count(n: int)
    | Matches(matches: seq<CompanyMatch>)
    | Documents(frame: DocumentFrame)
    | Pivot(table: PivotTable)
    | Extracted(results: ResultsFrame)

  /** The keys of `_defaults`, in their declared order (streamlit_app_state.py:7-18). */
  const DefaultKeys: seq<string> := [
    "scrip_code", "company_name", "company_matches", "bse_documents_df", "bse_documents_pivot_df",
    "extract_selected_quarter", "extract_type", "extract_pdf_link", "extracted_results",
    "extract_link_count"]

  /** The keys `reset_bse_documents_and_extracted_results` resets (streamlit_app_state.py:43-51). */
  const BseKeys: seq<string> := [
    "bse_documents_df", "bse_documents_pivot_df", "extract_selected_quarter", "extract_type",
    "extract_pdf_link", "extracted_results", "extract_link_count"]

  /** The keys `reset_extracted_results` resets (streamlit_app_state.py:60-66). */
  const ExtractedKeys: seq<string> := ["extract_pdf_link", "extracted_results", "extract_link_count"]

  /** `_defaults[key]`: an empty name, no matches, a zero link count, None elsewhere. */
  function Default(key: string): Value {
    if key == "company_name" then Text("")
    else if key == "company_matches" then Matches([])
    else if key == "extract_link_count" then Count(0)
    else Null
  }

  function KeySet(keys: seq<string>): set<string> {
    set k | k in keys
  }

  /** The session after the `__init__` loop over `keys`: each missing key gets its default. */
  function FillMissing(session: map<string, Value>, keys: seq<string>): map<string, Value> {
    if keys == [] then session
    else
      var prev := FillMissing(session, keys[..|keys| - 1]);
      var k := keys[|keys| - 1];
      if k in prev then prev else prev[k := Default(k)]
  }

  /** The session after a reset loop over `keys`: each listed key holds its default. */
  function ResetKeys(session: map<string, Value>, keys: seq<string>): map<string, Value> {
    if keys == [] then session
    else
      var k := keys[|keys| - 1];
      ResetKeys(session, keys[..|keys| - 1])[k := Default(k)]
  }

  /** `__init__` writes a default only for an absent key; present keys keep their values and
      nothing else is added (streamlit_app_state.py:22-25). */
  lemma {:induction false} FillMissingSpec(session: map<string, Value>, keys: seq<string>, k: string)
    ensures var s := FillMissing(session, keys);
      && s.Keys == session.Keys + KeySet(keys)
      && (k in session ==> s[k] == session[k])
      && (k !in session && k in keys ==> s[k] == Default(k))
  {
    if keys != [] {
      FillMissingSpec(session, keys[..|keys| - 1], k);
      LastSplit(keys, k);
    }
  }

  /** A key list is its front and its last key, as a set and for membership. */
  lemma LastSplit(keys: seq<string>, k: string)
    requires keys != []
    ensures KeySet(keys) == KeySet(keys[..|keys| - 1]) + {keys[|keys| - 1]}
    ensures k in keys <==> k in keys[..|keys| - 1] || k == keys[|keys| - 1]
  {
    assert keys == keys[..|keys| - 1] + [keys[|keys| - 1]];
  }

  /** A reset gives every listed key its default and leaves every other key as it was. */
  lemma {:induction false} ResetKeysSpec(session: map<string, Value>, keys: seq<string>, k: string)
    ensures var s := ResetKeys(session, keys);
      && s.Keys == session.Keys + KeySet(keys)
      && (k in keys ==> s[k] == Default(k))
      && (k !in keys && k in session ==> s[k] == session[k])
  {
    if keys != [] {
      ResetKeysSpec(session, keys[..|keys| - 1], k);
      LastSplit(keys, k);
    }
  }

  /** Resetting twice is resetting once. */
  lemma ResetIdempotent(session: map<string, Value>, keys: seq<string>)
    ensures ResetKeys(ResetKeys(session, keys), keys) == ResetKeys(session, keys)
  {
    var once := ResetKeys(session, keys);
    var twice := ResetKeys(once, keys);
    forall k | k in twice.Keys || k in once.Keys ensures k in twice && k in once && twice[k] == once[k] {
      ResetKeysSpec(session, keys, k);
      ResetKeysSpec(once, keys, k);
    }
    ResetKeysSpec(session, keys, "");
    ResetKeysSpec(once, keys, "");
  }

  /** The reset key lists are nested: extracted results within documents within all keys. */
  lemma ResetKeysNested()
    ensures forall k :: k in ExtractedKeys ==> k in BseKeys
    ensures forall k :: k in BseKeys ==> k in DefaultKeys
    ensures "scrip_code" !in BseKeys && "company_name" !in BseKeys && "company_matches" !in BseKeys
    ensures "extract_selected_quarter" !in ExtractedKeys && "extract_type" !in ExtractedKeys
  {
  }

  /** After a wider reset a narrower one changes nothing. */
  lemma ResetAbsorbs(session: map<string, Value>, wide: seq<string>, narrow: seq<string>)
    requires forall k :: k in narrow ==> k in wide
    ensures ResetKeys(ResetKeys(session, wide), narrow) == ResetKeys(session, wide)
  {
    var a := ResetKeys(session, wide);
    var b := ResetKeys(a, narrow);
    forall k | k in a.Keys || k in b.Keys ensures k in a && k in b && a[k] == b[k] {
      ResetKeysSpec(session, wide, k);
      ResetKeysSpec(a, narrow, k);
    }
    ResetKeysSpec(session, wide, "");
    ResetKeysSpec(a, narrow, "");
  }

  /** `st.session_state.get(key)`: the stored value, None for a missing key. */
  function Lookup(session: map<string, Value>, key: string): Value {
    if key in session then session[key] else Null
  }

  /** The typed properties of streamlit_app_state.py:79-158, one per key. */
  datatype Field =
    | ScripCode | CompanyName | CompanyMatches | BseDocumentsDf | BseDocumentsPivotDf
    | ExtractSelectedQuarter | ExtractType | ExtractPdfLink | ExtractedResults | ExtractLinkCount

  /** The session key a property reads and writes. */
  function KeyOf(f: Field): string {
    match f
    case ScripCode => "scrip_code"
    case CompanyName => "company_name"
    case CompanyMatches => "company_matches"
    case BseDocumentsDf => "bse_documents_df"
    case BseDocumentsPivotDf => "bse_documents_pivot_df"
    case ExtractSelectedQuarter => "extract_selected_quarter"
    case ExtractType => "extract_type"
    case ExtractPdfLink => "extract_pdf_link"
    case ExtractedResults => "extracted_results"
    case ExtractLinkCount => "extract_link_count"
  }

  /** Distinct properties use distinct keys, so writing one never changes another; every
      property's key is one of the defaulted keys. */
  lemma KeyOfInjective(f: Field, g: Field)
    ensures KeyOf(f) == KeyOf(g) <==> f == g
    ensures KeyOf(f) in DefaultKeys
  {
  }

  /** Writing one property's key leaves what every other property reads as it was. */
  lemma SetFieldKeepsOthers(session: map<string, Value>, f: Field, g: Field, v: Value)
    requires f != g
    ensures Lookup(session[KeyOf(f) := v], KeyOf(g)) == Lookup(session, KeyOf(g))
  {
    KeyOfInjective(f, g);
  }

  /** The wrapper around `st.session_state`. */
  class AppState {
    var session: map<string, Value>

    /** `__init__` (streamlit_app_state.py:20-25) over the session as it was found. */
    constructor (existing: map<string, Value>)
      ensures session == FillMissing(existing, DefaultKeys)
    {
      var filled := existing;
      for i := 0 to |DefaultKeys|
        invariant filled == FillMissing(existing, DefaultKeys[..i])
      {
        var key := DefaultKeys[i];
        assert DefaultKeys[..i + 1][..i] == DefaultKeys[..i];
        if key !in filled {
          filled := filled[key := Default(key)];
        }
      }
      assert DefaultKeys[..|DefaultKeys|] == DefaultKeys;
      session := filled;
    }

    /** Writes every key of `keys` back to its default, in order. */
    method ResetListed(keys: seq<string>)
      modifies this
      ensures session == ResetKeys(old(session), keys)
    {
      ghost var start := session;
      for i := 0 to |keys|
        invariant session == ResetKeys(start, keys[..i])
      {
        assert keys[..i + 1][..i] == keys[..i];
        session := session[keys[i] := Default(keys[i])];
      }
      assert keys[..|keys|] == keys;
    }

    /** `reset_all` (streamlit_app_state.py:29-36). */
    method ResetAll()
      modifies this
      ensures session == ResetKeys(old(session), DefaultKeys)
    {
      ResetListed(DefaultKeys);
    }

    /** `reset_bse_documents_and_extracted_results` (streamlit_app_state.py:39-53). */
    method ResetBseDocumentsAndExtractedResults()
      modifies this
      ensures session == ResetKeys(old(session), BseKeys)
    {
      ResetListed(BseKeys);
    }

    /** `reset_extracted_results` (streamlit_app_state.py:56-68). */
    method ResetExtractedResults()
      modifies this
      ensures session == ResetKeys(old(session), ExtractedKeys)
    {
      ResetListed(ExtractedKeys);
    }

    /** `get` (streamlit_app_state.py:71-72). */
    function Get(key: string): Value
      reads this
    {
      Lookup(session, key)
    }

    /** `set` (streamlit_app_state.py:75-76). */
    method Set(key: string, value: Value)
      modifies this
      ensures session == old(session)[key := value]
      ensures Get(key) == value
    {
      session := session[key := value];
    }

    /** A property getter. */
    function GetField(f: Field): Value
      reads this
    {
      Get(KeyOf(f))
    }

    /** A property setter: writes its key and no other. */
    method SetField(f: Field, value: Value)
      modifies this
      ensures session == old(session)[KeyOf(f) := value]
      ensures GetField(f) == value
    {
      Set(KeyOf(f), value);
    }
  }
}
