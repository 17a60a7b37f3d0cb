/**
 * `json_to_dataframe` (genai_extract_results.py:14-31): the extraction service's text is
 * trimmed, its code fence is removed by
 * `re.sub(r"^```json\s*|\s*```$", "", text, flags=re.MULTILINE)`, the rest is parsed as JSON
 * and the object's (key, value) pairs become (Field, Value) rows. The substitution is modelled
 * character by character; `json.loads` is a parameter.
 */
module GenaiExtract {
  import opened Wrappers
  import opened Strings

  const Fence := "```"
  const OpenFence := "```json"

  /** `^` under MULTILINE: the start of the text or just after a newline. */
  predicate AtLineStart(t: string, i: nat)
    requires i <= |t|
  {
    i == 0 || t[i - 1] == '\n'
  }

  /** `$` under MULTILINE: the end of the text or just before a newline. */
  predicate AtLineEnd(t: string, i: nat)
    requires i <= |t|
  {
    i == |t| || t[i] == '\n'
  }

  /** The length of the whitespace run `\s*` takes from position i (greedily). */
  function SpaceRun(t: string, i: nat): (k: nat)
    requires i <= |t|
    ensures i + k <= |t| && AllSpace(t[i..i + k])
    ensures i + k == |t| || !IsSpace(t[i + k])
    decreases |t| - i
  {
    if i < |t| && IsSpace(t[i]) then 1 + SpaceRun(t, i + 1) else 0
  }

  /** A whitespace run ending at a non-space character (or the end) is the one `\s*` takes. */
  lemma SpaceRunUnique(t: string, i: nat, k: nat)
    requires i + k <= |t| && AllSpace(t[i..i + k])
    requires i + k == |t| || !IsSpace(t[i + k])
    ensures SpaceRun(t, i) == k
  {
  }

  /** The first alternative, `^```json\s*`, tried at i: where its match ends, if it matches. */
  function OpenFenceAt(t: string, i: nat): (m: Option<nat>)
    requires i <= |t|
    ensures m.Some? ==> i + |OpenFence| <= m.value <= |t| && OccursAt(t, Fence, i)
  {
    if AtLineStart(t, i) && i + |OpenFence| <= |t| && t[i..i + |OpenFence|] == OpenFence then
      assert t[i..i + |Fence|] == t[i..i + |OpenFence|][..|Fence|];
      Some(i + |OpenFence| + SpaceRun(t, i + |OpenFence|))
    else None
  }

  /** The second alternative, `\s*```$`, tried at i. Backtracking cannot help `\s*`: a shorter
      run is followed by a whitespace character, never by a backquote. */
  function CloseFenceAt(t: string, i: nat): (m: Option<nat>)
    requires i <= |t|
    ensures m.Some? ==> i + |Fence| <= m.value <= |t| && OccursAt(t, Fence, m.value - |Fence|)
    ensures m.Some? ==> AllSpace(t[i..m.value - |Fence|]) && AtLineEnd(t, m.value)
  {
    var k := SpaceRun(t, i);
    if i + k + |Fence| <= |t| && t[i + k..i + k + |Fence|] == Fence && AtLineEnd(t, i + k + |Fence|)
    then Some(i + k + |Fence|)
    else None
  }

  /** The pattern tried at i: the alternatives in order, the first that matches wins. */
  function MatchAt(t: string, i: nat): (m: Option<nat>)
    requires i <= |t|
    ensures m.Some? ==> i < m.value <= |t|
    ensures m.Some? ==> exists p :: i <= p && p + |Fence| <= m.value && OccursAt(t, Fence, p)
  {
    match OpenFenceAt(t, i)
    case Some(j) => Some(j)
    case None => CloseFenceAt(t, i)
  }

  /** `re.sub(pattern, "", t)` from position i: each match is dropped, every other character kept. */
  function Substitute(t: string, i: nat): string
    requires i <= |t|
    decreases |t| - i
  {
    if i == |t| then []
    else match MatchAt(t, i)
      case Some(j) => Substitute(t, j)
      case None => [t[i]] + Substitute(t, i + 1)
  }

  /** genai_extract_results.py:25: the response trimmed, then its fence removed. */
  function CleanResponse(text: string): string {
    Substitute(Strip(text), 0)
  }

  /** Where no fence occurs, the substitution copies the text unchanged. */
  lemma {:induction false} SubstituteNoFence(t: string, i: nat)
    requires i <= |t|
    requires !Contains(t, Fence)
    ensures Substitute(t, i) == t[i..]
    decreases |t| - i
  {
    if i < |t| {
      assert MatchAt(t, i).None?;
      SubstituteNoFence(t, i + 1);
      assert t[i..] == [t[i]] + t[i + 1..];
    }
  }

  /** What stripping keeps is a slice of the text, so it holds no fence the text lacks. */
  lemma StripKeepsNoFence(text: string)
    requires !Contains(text, Fence)
    ensures !Contains(Strip(text), Fence)
  {
    var off := |text| - |TrimStart(text)|;
    StripIsSlice(text);
    SliceKeepsNoFence(text, off, off + |Strip(text)|, Strip(text));
  }

  /** Stripping keeps a contiguous slice of the text. */
  lemma StripIsSlice(text: string)
    ensures var off := |text| - |TrimStart(text)|;
      off + |Strip(text)| <= |text| && Strip(text) == text[off..off + |Strip(text)|]
  {
  }

  /** A slice of a text without a fence has none either. */
  lemma SliceKeepsNoFence(t: string, lo: nat, hi: nat, part: string)
    requires lo <= hi <= |t| && part == t[lo..hi] && !Contains(t, Fence)
    ensures !Contains(part, Fence)
  {
    forall p | 0 <= p && p + |Fence| <= |part|
      ensures !OccursAt(part, Fence, p)
    {
      OccursInSlice(t, lo, hi, p);
    }
  }

  /** A fence occurs in a slice exactly where it occurs in the text at the shifted position. */
  lemma OccursInSlice(t: string, lo: nat, hi: nat, p: nat)
    requires lo <= hi <= |t| && p + |Fence| <= hi - lo
    ensures OccursAt(t[lo..hi], Fence, p) <==> OccursAt(t, Fence, lo + p)
  {
    var inSlice, inText := t[lo..hi][p..p + |Fence|], t[lo + p..lo + p + |Fence|];
    forall k | 0 <= k < |Fence|
      ensures inSlice[k] == inText[k]
    {
    }
    assert inSlice == inText;
  }

  /** A response with no "```" in it is only trimmed. */
  lemma CleanUnfenced(text: string)
    requires !Contains(text, Fence)
    ensures CleanResponse(text) == Strip(text)
  {
    StripKeepsNoFence(text);
    SubstituteNoFence(Strip(text), 0);
  }

  /** No "```" starts anywhere in t[s..e]: inside it, or running past its last character,
      which is not a backquote. */
  predicate NoFenceFrom(t: string, s: nat, e: nat)
    requires s <= e <= |t|
  {
    forall q :: s <= q < e && q + |Fence| <= |t| ==> !OccursAt(t, Fence, q)
  }

  lemma BodyHasNoFence(t: string, s: nat, e: nat)
    requires s < e <= |t| && t[e - 1] != '`'
    requires !Contains(t[s..e], Fence)
    ensures NoFenceFrom(t, s, e)
  {
    forall q | s <= q < e && q + |Fence| <= |t|
      ensures !OccursAt(t, Fence, q)
    {
      if q + |Fence| <= e {
        FenceWithin(t, s, e, q);
      } else {
        FenceAcrossEnd(t, e, q);
      }
    }
  }

  /** A fence lying wholly inside t[s..e] would occur in that slice. */
  lemma FenceWithin(t: string, s: nat, e: nat, q: nat)
    requires s <= q && q + |Fence| <= e <= |t|
    requires !Contains(t[s..e], Fence)
    ensures !OccursAt(t, Fence, q)
  {
    OccursInSlice(t, s, e, q - s);
  }

  /** A fence that starts before e and runs past it covers t[e - 1], which is no backquote. */
  lemma FenceAcrossEnd(t: string, e: nat, q: nat)
    requires q < e < q + |Fence| <= |t| && t[e - 1] != '`'
    ensures !OccursAt(t, Fence, q)
  {
    assert t[q..q + |Fence|][e - 1 - q] == t[e - 1];
  }

  /** Inside a fence-free stretch ending in a non-space character, the pattern matches nowhere:
      a whitespace run started there stops before the stretch ends. */
  lemma NoMatchInside(t: string, s: nat, e: nat, p: nat)
    requires s <= p < e <= |t| && !IsSpace(t[e - 1])
    requires NoFenceFrom(t, s, e)
    ensures MatchAt(t, p).None?
  {
  }

  /** Between s and e the pattern matches nowhere, so the substitution copies t[s..e]. */
  lemma {:induction false} SubstituteCopies(t: string, s: nat, e: nat)
    requires s <= e <= |t|
    requires s < e ==> !IsSpace(t[e - 1])
    requires NoFenceFrom(t, s, e)
    ensures Substitute(t, s) == t[s..e] + Substitute(t, e)
    decreases e - s
  {
    if s < e {
      CopyStep(t, s, e);
      SubstituteCopies(t, s + 1, e);
      ConsSlice(t, s, e, Substitute(t, e));
    }
  }

  /** One character of a fence-free stretch is copied and the rest stays fence-free. */
  lemma CopyStep(t: string, s: nat, e: nat)
    requires s < e <= |t| && !IsSpace(t[e - 1])
    requires NoFenceFrom(t, s, e)
    ensures Substitute(t, s) == [t[s]] + Substitute(t, s + 1)
    ensures NoFenceFrom(t, s + 1, e)
  {
    NoMatchInside(t, s, e, s);
    SubstituteKeeps(t, s);
  }

  lemma ConsSlice(t: string, s: nat, e: nat, rest: string)
    requires s < e <= |t|
    ensures [t[s]] + (t[s + 1..e] + rest) == t[s..e] + rest
  {
    assert t[s..e] == [t[s]] + t[s + 1..e];
  }

  /** Where the pattern does not match, the character is kept. */
  lemma SubstituteKeeps(t: string, i: nat)
    requires i < |t| && MatchAt(t, i).None?
    ensures Substitute(t, i) == [t[i]] + Substitute(t, i + 1)
  {
  }

  /** The opening "```json" and the whitespace after it form the first match. */
  lemma OpeningMatch(x: string, s: nat)
    requires |OpenFence| <= s < |x|
    requires x[..|OpenFence|] == OpenFence && AllSpace(x[|OpenFence|..s]) && !IsSpace(x[s])
    ensures MatchAt(x, 0) == Some(s)
  {
    SpaceRunUnique(x, |OpenFence|, s - |OpenFence|);
  }

  /** Whitespace and the closing "```" at the end of the text, after a character that is not a
      newline, form a match of the second alternative only. */
  lemma ClosingMatch(x: string, e: nat)
    requires 0 < e && e + |Fence| <= |x| && !IsSpace(x[e - 1])
    requires AllSpace(x[e..|x| - |Fence|]) && x[|x| - |Fence|..] == Fence
    ensures MatchAt(x, e) == Some(|x|)
  {
    SpaceRunUnique(x, e, |x| - |Fence| - e);
    assert !AtLineStart(x, e);
  }

  /** Removing the fence from "```json" + gap + body + gap2 + "```" leaves the body. */
  lemma FencedSubstitute(gap: string, body: string, gap2: string)
    requires AllSpace(gap) && AllSpace(gap2)
    requires body != [] && !IsSpace(body[0]) && !IsSpace(body[|body| - 1]) && body[|body| - 1] != '`'
    requires !Contains(body, Fence)
    ensures Substitute(OpenFence + gap + body + gap2 + Fence, 0) == body
  {
    FencedLayout(OpenFence, gap, body, gap2, Fence);
    FenceStripped(OpenFence + gap + body + gap2 + Fence, |OpenFence| + |gap|, |OpenFence| + |gap| + |body|, body);
  }

  /** A text laid out as "```json", whitespace, a stretch that starts and ends with neither
      whitespace nor (at its end) a backquote and holds no "```", whitespace and "```" comes out
      of the substitution as that stretch: the opening is the first match, nothing inside the
      stretch matches, and the closing is the last match. */
  lemma FenceStripped(x: string, s: nat, e: nat, body: string)
    requires |OpenFence| <= s < e && e + |Fence| <= |x| && body == x[s..e]
    requires x[..|OpenFence|] == OpenFence && AllSpace(x[|OpenFence|..s]) && !IsSpace(x[s])
    requires !Contains(body, Fence) && x[e - 1] != '`' && !IsSpace(x[e - 1])
    requires AllSpace(x[e..|x| - |Fence|]) && x[|x| - |Fence|..] == Fence
    ensures Substitute(x, 0) == body
  {
    OpeningMatch(x, s);
    BodyHasNoFence(x, s, e);
    SubstituteCopies(x, s, e);
    ClosingMatch(x, e);
    assert Substitute(x, e) == Substitute(x, |x|);
    assert x[s..e] + [] == x[s..e];
  }

  /** Where each of five concatenated pieces sits. */
  lemma FencedLayout(a: string, b: string, c: string, d: string, f: string)
    requires c != []
    ensures var x := a + b + c + d + f;
      var s, e := |a| + |b|, |a| + |b| + |c|;
      && |x| == e + |d| + |f|
      && x[..|a|] == a && x[|a|..s] == b && x[s..e] == c && x[e..|x| - |f|] == d && x[|x| - |f|..] == f
      && x[s] == c[0] && x[e - 1] == c[|c| - 1]
  {
  }

  /**
   * A fenced response: "```json", whitespace, the JSON text, whitespace, "```", with any
   * whitespace around it. Cleaning leaves exactly the JSON text, provided that text neither
   * begins nor ends with whitespace, does not end with a backquote and holds no "```".
   */
  lemma CleanFenced(lead: string, gap: string, body: string, gap2: string, trail: string)
    requires AllSpace(lead) && AllSpace(gap) && AllSpace(gap2) && AllSpace(trail)
    requires body != [] && !IsSpace(body[0]) && !IsSpace(body[|body| - 1]) && body[|body| - 1] != '`'
    requires !Contains(body, Fence)
    ensures CleanResponse(lead + (OpenFence + gap + body + gap2 + Fence) + trail) == body
  {
    var x := OpenFence + gap + body + gap2 + Fence;
    assert x[0] == '`' && x[|x| - 1] == '`';
    StripSurrounded(lead, x, trail);
    FencedSubstitute(gap, body, gap2);
  }

  /** Text without a backquote holds no fence. */
  lemma NoBackquoteNoFence(b: string)
    requires forall i :: 0 <= i < |b| ==> b[i] != '`'
    ensures !Contains(b, Fence)
  {
    forall p | 0 <= p && p + |Fence| <= |b|
      ensures !OccursAt(b, Fence, p)
    {
      assert b[p..p + |Fence|][0] == b[p];
    }
  }

  /** The worked example: a two-field object fenced as "```json", newline, object, newline, "```". */
  lemma CleanExample(body: string)
    requires body == "{\"CoreRevenue\": \"1234.5\", \"OtherIncome\": \"\"}"
    ensures CleanResponse("```json\n" + body + "\n```") == body
  {
    assert !Contains(body, Fence) by { NoBackquoteNoFence(body); }
    assert "" + (OpenFence + "\n" + body + "\n" + Fence) + "" == "```json\n" + body + "\n```" by {
      assert "```json\n" == OpenFence + "\n" && "\n```" == "\n" + Fence;
    }
    CleanFenced("", "\n", body, "\n", "");
  }

  /** A JSON value as `json.loads` returns it; numbers keep their literal text. An object's
      members are the resulting dict's items, in order. */
  datatype Json =
    | JNull
    | JBool(b: bool)
    | JNumber(literal: string)
    | JString(s: string)
    | JArray(elems: seq<Json>)
    | JObject(members: seq<(string, Json)>)

  /** `json.loads`: the parsed value, or None where it raises. */
  type JsonParser = string -> Option<Json>

  /** One row of the Field/Value frame. */
  datatype FieldRow = FieldRow(field: string, value: Json)

  /** `json.loads` raising, or `.items()` failing on a value that is not an object. */
  datatype ExtractError = InvalidJson | NotAnObject

  /** `list(data_dict.items())` as rows. */
  function MembersToRows(members: seq<(string, Json)>): (rows: seq<FieldRow>)
    ensures |rows| == |members|
    ensures forall i :: 0 <= i < |members| ==> rows[i].field == members[i].0 && rows[i].value == members[i].1
  {
    seq(|members|, i requires 0 <= i < |members| => FieldRow(members[i].0, members[i].1))
  }

  /** The object a frame of rows stands for: its rows as (key, value) pairs. */
  function RowsToMembers(rows: seq<FieldRow>): (members: seq<(string, Json)>)
    ensures |members| == |rows|
  {
    seq(|rows|, i requires 0 <= i < |rows| => (rows[i].field, rows[i].value))
  }

  /** Rows and members correspond one to one, in both directions. */
  lemma MembersRowsRoundTrip(members: seq<(string, Json)>, rows: seq<FieldRow>)
    ensures RowsToMembers(MembersToRows(members)) == members
    ensures MembersToRows(RowsToMembers(rows)) == rows
  {
  }

  /**
   * `json_to_dataframe`: the rows are the parsed object's (key, value) pairs in key order;
   * text that does not parse after cleaning is an error, and so is JSON that is not an object.
   */
  function JsonToRows(responseText: string, parse: JsonParser): (r: Result<seq<FieldRow>, ExtractError>)
    ensures r == Failure(InvalidJson) <==> parse(CleanResponse(responseText)).None?
    ensures r == Failure(NotAnObject) <==>
      parse(CleanResponse(responseText)).Some? && !parse(CleanResponse(responseText)).value.JObject?
    ensures r.Success? ==> parse(CleanResponse(responseText)) == Some(JObject(RowsToMembers(r.value)))
  {
    match parse(CleanResponse(responseText))
    case None => Failure(InvalidJson)
    case Some(JObject(members)) =>
      MembersRowsRoundTrip(members, []);
      Success(MembersToRows(members))
    case Some(_) => Failure(NotAnObject)
  }
}
