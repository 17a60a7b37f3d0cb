/**
 * The pure helpers of the dashboard (streamlit_helpers.py): the quarter label and the sort key
 * read back out of it, the pivot of the announcements frame into a config-by-quarter table of
 * links, and the label split and response conversion of `extract_results_from_pdf_link`.
 */
module Helpers {
  import opened Wrappers
  import opened Strings
  import opened Announcements
  import opened GenaiExtract

  // ---------------------------------------------------------------------------------------
  // Quarter labels and their sort key
  // ---------------------------------------------------------------------------------------

  /** `str()` of a frame cell holding an optional integer. */
  function CellText(v: Option<int>): string {
    if v.Some? then IntToDecimal(v.value) else "None"
  }

  /** The `Quarter_FY` label, f"Q{quarter} FY{fiscal_year}" (streamlit_helpers.py:125). */
  function QuarterLabel(q: int, fy: int): string {
    "Q" + IntToDecimal(q) + " FY" + IntToDecimal(fy)
  }

  function RecordLabel(r: Record): string {
    "Q" + CellText(r.quarter) + " FY" + CellText(r.fiscalYear)
  }

  /** Sort keys compare as Python tuples: fiscal year first, then quarter. */
  predicate KeyLe(a: (nat, nat), b: (nat, nat)) {
    a.0 < b.0 || (a.0 == b.0 && a.1 <= b.1)
  }

  /** The text starts with what `re.match(r"Q(\d) FY(\d+)", text)` needs: "Q", a digit, " FY"
      and at least one digit. */
  predicate HasKeyPrefix(text: string) {
    |text| >= 6 && text[0] == 'Q' && IsDigit(text[1])
    && text[2] == ' ' && text[3] == 'F' && text[4] == 'Y' && IsDigit(text[5])
  }

  /** The length of the run of digits starting at `i`: what the greedy `\d+` consumes. */
  function DigitRun(s: string, i: nat): (k: nat)
    requires i <= |s|
    ensures i + k <= |s| && AllDigits(s[i..i + k])
    ensures i + k == |s| || !IsDigit(s[i + k])
    decreases |s| - i
  {
    if i < |s| && IsDigit(s[i]) then
      var k := DigitRun(s, i + 1);
      assert s[i..i + 1 + k][1..] == s[i + 1..i + 1 + k];
      1 + k
    else 0
  }

  /** `quarter_sort_key` (streamlit_helpers.py:148-154): (fiscal year, quarter) read from the
      start of the label, (0, 0) when the label does not start with the pattern. */
  function QuarterSortKey(text: string): (key: (nat, nat))
    ensures !HasKeyPrefix(text) ==> key == (0, 0)
    ensures key.1 < 10
  {
    if HasKeyPrefix(text) then
      var k := DigitRun(text, 5);
      (DecimalValue(text[5..5 + k]), DigitValue(text[1]))
    else (0, 0)
  }

  /** A run of digits followed by a non-digit (or the end) is consumed exactly. */
  lemma {:induction false} DigitRunOf(s: string, i: nat, k: nat)
    requires i + k <= |s| && AllDigits(s[i..i + k])
    requires i + k == |s| || !IsDigit(s[i + k])
    ensures DigitRun(s, i) == k
    decreases k
  {
    if k > 0 {
      assert IsDigit(s[i..i + k][0]);
      assert s[i + 1..i + k] == s[i..i + k][1..];
      DigitRunOf(s, i + 1, k - 1);
    }
  }

  /** The key of a label built from a one-digit quarter and a non-negative year is (fy, q),
      whatever follows the label as long as it does not extend the year's digits. */
  lemma SortKeyOfLabel(q: nat, fy: nat, tail: string)
    requires q < 10
    requires tail == [] || !IsDigit(tail[0])
    ensures QuarterSortKey(QuarterLabel(q, fy) + tail) == (fy, q)
  {
    var digits := NatToDecimal(fy);
    assert NatToDecimal(q) == [DigitChar(q)];
    assert QuarterLabel(q, fy) + tail == ['Q', DigitChar(q), ' ', 'F', 'Y'] + digits + tail;
    KeyOfLayout(DigitChar(q), digits, tail);
  }

  /** The key read from "Q<c> FY<digits><tail>" when the tail does not extend the digits. */
  lemma KeyOfLayout(c: char, digits: string, tail: string)
    requires IsDigit(c) && |digits| >= 1 && AllDigits(digits)
    requires tail == [] || !IsDigit(tail[0])
    ensures QuarterSortKey(['Q', c, ' ', 'F', 'Y'] + digits + tail) == (DecimalValue(digits), DigitValue(c))
  {
    var text := ['Q', c, ' ', 'F', 'Y'] + digits + tail;
    assert text[5..5 + |digits|] == digits;
    assert text[1] == c && text[5] == digits[0];
    assert HasKeyPrefix(text);
    DigitRunOf(text, 5, |digits|);
    assert QuarterSortKey(text) == (DecimalValue(text[5..5 + |digits|]), DigitValue(text[1]));
  }

  /** Labels in key order: ascending, or descending as `reverse=True` asks. */
  predicate SortedByKey(labels: seq<string>, key: string -> (nat, nat), descending: bool) {
    forall i, j :: 0 <= i < j < |labels| ==> InKeyOrder(labels[i], labels[j], key, descending)
  }

  predicate InKeyOrder(a: string, b: string, key: string -> (nat, nat), descending: bool) {
    if descending then KeyLe(key(b), key(a)) else KeyLe(key(a), key(b))
  }

  function InsertByKey(l: string, sorted: seq<string>, key: string -> (nat, nat), descending: bool): (r: seq<string>)
    requires SortedByKey(sorted, key, descending)
    ensures SortedByKey(r, key, descending)
    ensures multiset(r) == multiset(sorted) + multiset{l}
  {
    if sorted == [] then [l]
    else if InKeyOrder(l, sorted[0], key, descending) then
      [l] + sorted
    else
      var rest := InsertByKey(l, sorted[1..], key, descending);
      assert sorted == [sorted[0]] + sorted[1..];
      HeadPrecedesRest(l, sorted, key, descending);
      ConsSorted(sorted[0], rest, key, descending);
      [sorted[0]] + rest
  }

  /** The head of a sorted list that `l` does not precede precedes `l` and the rest. */
  lemma HeadPrecedesRest(l: string, sorted: seq<string>, key: string -> (nat, nat), descending: bool)
    requires sorted != [] && SortedByKey(sorted, key, descending)
    requires !InKeyOrder(l, sorted[0], key, descending)
    ensures forall y :: y in multiset(sorted[1..]) + multiset{l} ==> InKeyOrder(sorted[0], y, key, descending)
  {
    forall y | y in multiset(sorted[1..]) + multiset{l}
      ensures InKeyOrder(sorted[0], y, key, descending)
    {
      if y != l {
        var j :| 0 <= j < |sorted[1..]| && sorted[1..][j] == y;
        assert sorted[j + 1] == y;
      }
    }
  }

  /** A sorted list behind an element that precedes all of it stays sorted. */
  lemma ConsSorted(x: string, rest: seq<string>, key: string -> (nat, nat), descending: bool)
    requires SortedByKey(rest, key, descending)
    requires forall y :: y in multiset(rest) ==> InKeyOrder(x, y, key, descending)
    ensures SortedByKey([x] + rest, key, descending)
  {
    var r := [x] + rest;
    forall i, j | 0 <= i < j < |r| ensures InKeyOrder(r[i], r[j], key, descending) {
      if i == 0 {
        assert r[j] == rest[j - 1] && rest[j - 1] in multiset(rest);
      } else {
        assert r[i] == rest[i - 1] && r[j] == rest[j - 1];
      }
    }
  }

  /** `labels` ordered by `key`, as `sorted(labels, key=key)` and a keyed `sort_index` do. */
  function SortByKey(labels: seq<string>, key: string -> (nat, nat), descending: bool): (r: seq<string>)
    ensures SortedByKey(r, key, descending)
    ensures multiset(r) == multiset(labels)
  {
    if labels == [] then []
    else
      assert labels == labels[..|labels| - 1] + [labels[|labels| - 1]];
      InsertByKey(labels[|labels| - 1], SortByKey(labels[..|labels| - 1], key, descending), key, descending)
  }

  // ---------------------------------------------------------------------------------------
  // Distinct names in first-seen order
  // ---------------------------------------------------------------------------------------

  predicate NoDuplicates(s: seq<string>) {
    forall i, j :: 0 <= i < j < |s| ==> s[i] != s[j]
  }

  /** The position where `x` first occurs in `s`. */
  function FirstIndex(s: seq<string>, x: string): (i: nat)
    requires x in s
    ensures i < |s| && s[i] == x && x !in s[..i]
  {
    var init := s[..|s| - 1];
    if x in init then
      var i := FirstIndex(init, x);
      assert s[..i] == init[..i];
      i
    else
      assert s == init + [s[|s| - 1]];
      assert s[..|s| - 1] == init;
      |s| - 1
  }

  /** Every element of `r` occurs in `s`, and `r` lists them in the order of their first
      occurrence in `s`. */
  predicate FirstSeenOrder(r: seq<string>, s: seq<string>) {
    forall i, j :: 0 <= i < j < |r| ==> r[i] in s && r[j] in s && FirstIndex(s, r[i]) < FirstIndex(s, r[j])
  }

  /** Each element of `s` once, where it first occurs. */
  function Distinct(s: seq<string>): (r: seq<string>)
    ensures forall x :: x in r <==> x in s
    ensures NoDuplicates(r)
  {
    if s == [] then []
    else
      var init := s[..|s| - 1];
      var prev := Distinct(init);
      assert s == init + [s[|s| - 1]];
      if s[|s| - 1] in prev then prev else prev + [s[|s| - 1]]
  }

  /** The first occurrence of an element of a prefix is unchanged by extending the sequence. */
  lemma FirstIndexExtend(init: seq<string>, last: string, x: string)
    requires x in init
    ensures FirstIndex(init + [last], x) == FirstIndex(init, x)
  {
    assert (init + [last])[..|init|] == init;
  }

  lemma {:induction false} DistinctFirstSeen(s: seq<string>)
    ensures FirstSeenOrder(Distinct(s), s)
  {
    if s != [] {
      var init, last := s[..|s| - 1], s[|s| - 1];
      assert s == init + [last];
      var prev, r := Distinct(init), Distinct(s);
      DistinctFirstSeen(init);
      forall i, j | 0 <= i < j < |r|
        ensures r[i] in s && r[j] in s && FirstIndex(s, r[i]) < FirstIndex(s, r[j])
      {
        assert r[i] == prev[i] && prev[i] in init;
        FirstIndexExtend(init, last, r[i]);
        if j < |prev| {
          assert r[j] == prev[j];
          FirstIndexExtend(init, last, r[j]);
        } else {
          assert r[j] == last && last !in init;
          assert FirstIndex(s, last) == |s| - 1;
        }
      }
    }
  }

  /** The elements of `s` that are in `keep`, in order. */
  function KeepIn(s: seq<string>, keep: set<string>): (r: seq<string>)
    ensures forall x :: x in r <==> x in s && x in keep
  {
    if s == [] then []
    else
      var init := s[..|s| - 1];
      assert s == init + [s[|s| - 1]];
      if s[|s| - 1] in keep then KeepIn(init, keep) + [s[|s| - 1]] else KeepIn(init, keep)
  }

  lemma {:induction false} KeepInFirstSeen(s: seq<string>, keep: set<string>, names: seq<string>)
    requires FirstSeenOrder(s, names)
    requires forall x :: x in s ==> x in names
    ensures FirstSeenOrder(KeepIn(s, keep), names)
  {
    if s != [] {
      var init, last := s[..|s| - 1], s[|s| - 1];
      assert s == init + [last];
      FirstSeenFront(s, names);
      KeepInFirstSeen(init, keep, names);
      if last in keep {
        FirstSeenSnoc(KeepIn(init, keep), last, names);
      }
    }
  }

  /** The front of a list in first-seen order is in that order, and its last element comes
      after every other. */
  lemma FirstSeenFront(s: seq<string>, names: seq<string>)
    requires s != [] && FirstSeenOrder(s, names)
    ensures FirstSeenOrder(s[..|s| - 1], names)
    ensures forall y :: y in s[..|s| - 1] ==> y in names && FirstIndex(names, y) < FirstIndex(names, s[|s| - 1])
  {
    var init := s[..|s| - 1];
    forall i, j | 0 <= i < j < |init|
      ensures init[i] in names && init[j] in names && FirstIndex(names, init[i]) < FirstIndex(names, init[j])
    {
      assert init[i] == s[i] && init[j] == s[j];
    }
    forall y | y in init
      ensures y in names && FirstIndex(names, y) < FirstIndex(names, s[|s| - 1])
    {
      var k :| 0 <= k < |init| && init[k] == y;
      assert s[k] == y;
    }
  }

  /** Appending an element that comes after all the others keeps first-seen order. */
  lemma FirstSeenSnoc(prev: seq<string>, x: string, names: seq<string>)
    requires FirstSeenOrder(prev, names) && x in names
    requires forall y :: y in prev ==> y in names && FirstIndex(names, y) < FirstIndex(names, x)
    ensures FirstSeenOrder(prev + [x], names)
  {
    var r := prev + [x];
    forall i, j | 0 <= i < j < |r|
      ensures r[i] in names && r[j] in names && FirstIndex(names, r[i]) < FirstIndex(names, r[j])
    {
      assert r[i] == prev[i] && prev[i] in prev;
      if j < |prev| {
        assert r[j] == prev[j];
      }
    }
  }

  /** `unique_config_order` (streamlit_helpers.py:116-121): each config name once, in the order
      of its first appearance. */
  method UniqueConfigOrder(configs: seq<Config>) returns (order: seq<string>)
    ensures order == Distinct(ConfigNames(configs))
    ensures FirstSeenOrder(order, ConfigNames(configs))
  {
    order := [];
    var seen: set<string> := {};
    ghost var names := ConfigNames(configs);
    for i := 0 to |configs|
      invariant order == Distinct(names[..i])
      invariant seen == set n | n in order
    {
      var name := configs[i].name;
      assert names[..i + 1][..i] == names[..i];
      if name !in seen {
        order := order + [name];
        seen := seen + {name};
      }
    }
    assert names[..|configs|] == names;
    DistinctFirstSeen(ConfigNames(configs));
  }

  function ConfigNames(configs: seq<Config>): (names: seq<string>)
    ensures |names| == |configs| && forall i :: 0 <= i < |configs| ==> names[i] == configs[i].name
  {
    seq(|configs|, i requires 0 <= i < |configs| => configs[i].name)
  }

  // ---------------------------------------------------------------------------------------
  // The pivot
  // ---------------------------------------------------------------------------------------

  /** One cell of the pivot: the Link and Headline lists of its records, or "" when it has none. */
  datatype Cell = Blank | Entries(links: seq<Option<string>>, headlines: seq<Option<string>>)

  /** Rows are config names, columns quarter labels; `cells[i][j]` is the cell of
      `rows[i]` and `columns[j]`. */
  datatype PivotTable = PivotTable(rows: seq<string>, columns: seq<string>, cells: seq<seq<Cell>>)

  /** The records of config `name` whose label is `text`, in record order. */
  function Matching(records: seq<Record>, name: string, text: string): (m: seq<Record>)
    ensures forall r :: r in m <==> r in records && r.config == name && RecordLabel(r) == text
  {
    if records == [] then []
    else
      var init, last := records[..|records| - 1], records[|records| - 1];
      assert records == init + [last];
      if last.config == name && RecordLabel(last) == text then Matching(init, name, text) + [last]
      else Matching(init, name, text)
  }

  lemma {:induction false} MatchingAppend(a: seq<Record>, b: seq<Record>, name: string, text: string)
    ensures Matching(a + b, name, text) == Matching(a, name, text) + Matching(b, name, text)
    decreases |b|
  {
    if b == [] {
      assert a + b == a;
    } else {
      var init := b[..|b| - 1];
      assert (a + b)[..|a + b| - 1] == a + init;
      MatchingAppend(a, init, name, text);
    }
  }

  function CellOf(records: seq<Record>, name: string, text: string): Cell {
    var m := Matching(records, name, text);
    if m == [] then Blank
    else Entries(seq(|m|, i requires 0 <= i < |m| => m[i].link), seq(|m|, i requires 0 <= i < |m| => m[i].headline))
  }

  function Labels(records: seq<Record>): (labels: seq<string>)
    ensures |labels| == |records| && forall i :: 0 <= i < |records| ==> labels[i] == RecordLabel(records[i])
  {
    seq(|records|, i requires 0 <= i < |records| => RecordLabel(records[i]))
  }

  /** `pivot_table(index="Config", columns="Quarter_FY", values=["Link", "Headline"],
      aggfunc=list).fillna("")` over the categories `order`, with the columns then sorted by
      `quarter_sort_key` (streamlit_helpers.py:113-141). */
  function PivotSpec(records: seq<Record>, order: seq<string>): PivotTable {
    if records == [] then PivotTable([], [], [])
    else
      var rows := KeepIn(order, RowNames(records));
      var columns := SortByKey(Distinct(Labels(records)), QuarterSortKey, false);
      PivotTable(rows, columns,
        seq(|rows|, i requires 0 <= i < |rows| =>
          seq(|columns|, j requires 0 <= j < |columns| => CellOf(records, rows[i], columns[j]))))
  }

  /** An empty frame pivots to an empty table (streamlit_helpers.py:113-114). */
  lemma PivotEmpty(order: seq<string>)
    ensures PivotSpec([], order) == PivotTable([], [], [])
  {
  }

  /** Rows: the config names that have records, each once, in the order of first appearance in
      the configs; which names and in what order does not depend on the records' order. */
  lemma PivotRows(records: seq<Record>, configs: seq<Config>)
    requires records != []
    ensures var t := PivotSpec(records, Distinct(ConfigNames(configs)));
      (forall n :: n in t.rows <==> n in ConfigNames(configs) && exists r :: r in records && r.config == n)
      && FirstSeenOrder(t.rows, ConfigNames(configs))
      && NoDuplicates(t.rows)
  {
    var names := ConfigNames(configs);
    var rows := KeepIn(Distinct(names), RowNames(records));
    DistinctFirstSeen(names);
    KeepInFirstSeen(Distinct(names), RowNames(records), names);
    forall i, j | 0 <= i < j < |rows| ensures rows[i] != rows[j] {
      assert FirstIndex(names, rows[i]) < FirstIndex(names, rows[j]);
    }
  }

  /** Two frames with the same config names have the same rows, whatever the records' order. */
  lemma PivotRowsIgnoreRecordOrder(a: seq<Record>, b: seq<Record>, order: seq<string>)
    requires a != [] && b != []
    requires forall r :: r in a <==> r in b
    ensures PivotSpec(a, order).rows == PivotSpec(b, order).rows
  {
    assert RowNames(a) == RowNames(b);
  }

  /** Columns: every label that occurs, once, ascending by `quarter_sort_key`. */
  lemma PivotColumns(records: seq<Record>, order: seq<string>)
    requires records != []
    ensures var t := PivotSpec(records, order);
      SortedByKey(t.columns, QuarterSortKey, false)
      && (forall l :: l in t.columns <==> exists r :: r in records && RecordLabel(r) == l)
      && NoDuplicates(t.columns)
  {
    var labels := Distinct(Labels(records));
    var columns := SortByKey(labels, QuarterSortKey, false);
    forall l ensures l in columns <==> exists r :: r in records && RecordLabel(r) == l {
      assert l in columns <==> l in multiset(labels);
      LabelOccurs(records, l);
    }
    SortKeepsDistinct(labels, QuarterSortKey, false);
    assert PivotSpec(records, order).columns == columns;
  }

  /** Sorting a sequence without duplicates leaves none. */
  lemma SortKeepsDistinct(labels: seq<string>, key: string -> (nat, nat), descending: bool)
    requires NoDuplicates(labels)
    ensures NoDuplicates(SortByKey(labels, key, descending))
  {
    PermutationKeepsDistinct(labels, SortByKey(labels, key, descending));
  }

  lemma PermutationKeepsDistinct(a: seq<string>, b: seq<string>)
    requires NoDuplicates(a) && multiset(a) == multiset(b)
    ensures NoDuplicates(b)
  {
    forall i, j | 0 <= i < j < |b| ensures b[i] != b[j] {
      if b[i] == b[j] {
        RepeatCount(b, i, j);
        DistinctOnce(a, b[i]);
      }
    }
  }

  /** An element at two positions occurs at least twice. */
  lemma RepeatCount(s: seq<string>, i: nat, j: nat)
    requires i < j < |s| && s[i] == s[j]
    ensures multiset(s)[s[i]] >= 2
  {
    var x := s[i];
    assert s == s[..j] + [x] + s[j + 1..];
    assert x in s[..j];
    assert multiset(s) == multiset(s[..j]) + multiset{x} + multiset(s[j + 1..]);
  }

  lemma LabelOccurs(records: seq<Record>, l: string)
    ensures l in Labels(records) <==> exists r :: r in records && RecordLabel(r) == l
  {
    if l in Labels(records) {
      var i :| 0 <= i < |records| && Labels(records)[i] == l;
      assert records[i] in records;
    }
    if r :| r in records && RecordLabel(r) == l {
      var i :| 0 <= i < |records| && records[i] == r;
      assert Labels(records)[i] == l;
    }
  }

  /** In a sequence without duplicates every element occurs once. */
  lemma {:induction false} DistinctOnce(s: seq<string>, x: string)
    requires NoDuplicates(s)
    ensures multiset(s)[x] <= 1
  {
    if s != [] {
      var init := s[..|s| - 1];
      assert s == init + [s[|s| - 1]];
      assert NoDuplicates(init);
      DistinctOnce(init, x);
      if x == s[|s| - 1] {
        assert x !in init;
      }
    }
  }

  /** Cells: the Link and Headline lists of the records with that config and label, in record
      order; "" where there are none (streamlit_helpers.py:127-133). */
  lemma PivotCells(records: seq<Record>, order: seq<string>, i: nat, j: nat)
    requires records != []
    requires var t := PivotSpec(records, order); i < |t.rows| && j < |t.columns|
    ensures var t := PivotSpec(records, order); var m := Matching(records, t.rows[i], t.columns[j]);
      |t.cells| == |t.rows| && |t.cells[i]| == |t.columns|
      && (t.cells[i][j] == Blank <==> forall r :: r in records ==> r.config != t.rows[i] || RecordLabel(r) != t.columns[j])
      && (t.cells[i][j].Entries? ==>
            |t.cells[i][j].links| == |m| == |t.cells[i][j].headlines|
            && forall k :: 0 <= k < |m| ==> t.cells[i][j].links[k] == m[k].link && t.cells[i][j].headlines[k] == m[k].headline)
  {
    var t := PivotSpec(records, order);
    var m := Matching(records, t.rows[i], t.columns[j]);
    if m != [] {
      assert m[0] in m;
    }
  }

  /** streamlit_helpers.py:108-143. An empty frame is left as it is; otherwise the frame gains
      its `Quarter_FY` column, and the table is the pivot over the distinct config names. */
  method PivotAnnouncementLinks(df: DocumentFrame, configs: seq<Config>) returns (table: PivotTable)
    modifies df
    ensures table == PivotSpec(old(df.records), Distinct(ConfigNames(configs)))
    ensures df.records == old(df.records)
    ensures old(df.records) == [] ==> df.quarterFy == old(df.quarterFy)
    ensures old(df.records) != [] ==> df.quarterFy == Some(Labels(df.records))
  {
    if df.records == [] {
      return PivotTable([], [], []);
    }
    var order := UniqueConfigOrder(configs);
    df.quarterFy := Some(Labels(df.records));
    table := PivotSpec(df.records, order);
  }

  // ---------------------------------------------------------------------------------------
  // Extraction from a filing
  // ---------------------------------------------------------------------------------------

  /** Why tuple unpacking of `label.split()` into two names fails. */
  datatype SplitError = NotEnoughValues | TooManyValues

  /** `quarter, year = label.split()` (streamlit_helpers.py:76). */
  function SplitLabel(text: string): (r: Result<(string, string), SplitError>)
    ensures r.Success? ==> SplitWhitespace(text) == [r.value.0, r.value.1]
    ensures r == Failure(NotEnoughValues) <==> |SplitWhitespace(text)| < 2
    ensures r == Failure(TooManyValues) <==> |SplitWhitespace(text)| > 2
  {
    var tokens := SplitWhitespace(text);
    if |tokens| < 2 then Failure(NotEnoughValues)
    else if |tokens| > 2 then Failure(TooManyValues)
    else Success((tokens[0], tokens[1]))
  }

  /** A label built by the pivot splits back into its quarter and year words. */
  lemma SplitQuarterLabel(q: nat, fy: nat)
    ensures SplitLabel(QuarterLabel(q, fy)) == Success(("Q" + NatToDecimal(q), "FY" + NatToDecimal(fy)))
  {
    var a, b := "Q" + NatToDecimal(q), "FY" + NatToDecimal(fy);
    assert IntToDecimal(q) == NatToDecimal(q) && IntToDecimal(fy) == NatToDecimal(fy);
    assert QuarterLabel(q, fy) == a + " " + b;
    WordOfDigits("Q", q);
    WordOfDigits("FY", fy);
    SplitTwoWords(a, " ", b);
  }

  /** A word followed by the digits of a number holds no whitespace. */
  lemma WordOfDigits(w: string, n: nat)
    requires forall i :: 0 <= i < |w| ==> !IsSpace(w[i])
    ensures forall i :: 0 <= i < |w + NatToDecimal(n)| ==> !IsSpace((w + NatToDecimal(n))[i])
  {
    var d := NatToDecimal(n);
    forall i | 0 <= i < |w + d| ensures !IsSpace((w + d)[i]) {
      if i >= |w| {
        assert (w + d)[i] == d[i - |w|];
      }
    }
  }

  /** Fetching the filing's PDF by link; None when the request fails. */
  type Downloader = string -> Option<seq<bv8>>

  /** The Gemini call (quarter, year, kind, pdf, api key) -> response text; None when it fails. */
  type Extractor = (string, string, string, seq<bv8>, string) -> Option<string>

  /** The extracted table: a `Field` column and a value column named after the quarter label. */
  datatype ResultsFrame = ResultsFrame(fieldColumn: string, valueColumn: string, rows: seq<FieldRow>)

  datatype ExtractionError =
    | BadLabel(split: SplitError)
    | DownloadFailed
    | ModelFailed
    | BadResponse(cause: ExtractError)

  /** `extract_results_from_pdf_link` (streamlit_helpers.py:71-102): split the label, download
      the PDF, ask the model, convert its answer and name the value column after the label. */
  function ExtractFromLink(text: string, kind: string, pdfLink: string, apiKey: string,
                           download: Downloader, extract: Extractor, parse: JsonParser)
    : (r: Result<ResultsFrame, ExtractionError>)
    ensures SplitLabel(text).Failure? <==> r.Failure? && r.error.BadLabel?
    ensures r.Failure? && r.error.BadLabel? ==> r.error.split == SplitLabel(text).error
    ensures SplitLabel(text).Success? && download(pdfLink).None? <==> r == Failure(DownloadFailed)
    ensures r.Success? ==>
      && SplitLabel(text).Success? && download(pdfLink).Some?
      && r.value.fieldColumn == "Field" && r.value.valueColumn == text
      && ModelAnswer(SplitLabel(text).value, kind, download(pdfLink).value, apiKey, extract, parse)
         == Some(Success(r.value.rows))
  {
    var split := SplitLabel(text);
    if split.Failure? then Failure(BadLabel(split.error))
    else
      var pdf := download(pdfLink);
      if pdf.None? then Failure(DownloadFailed)
      else
        match ModelAnswer(split.value, kind, pdf.value, apiKey, extract, parse)
        case None => Failure(ModelFailed)
        case Some(Failure(e)) => Failure(BadResponse(e))
        case Some(Success(rows)) => Success(ResultsFrame("Field", text, rows))
  }

  /** The model's answer for the split label, converted to rows; None when the call fails. */
  function ModelAnswer(words: (string, string), kind: string, pdf: seq<bv8>, apiKey: string,
                       extract: Extractor, parse: JsonParser): Option<Result<seq<FieldRow>, ExtractError>> {
    var answer := extract(words.0, words.1, kind, pdf, apiKey);
    if answer.None? then None else Some(JsonToRows(answer.value, parse))
  }

  /** `extract_results_from_pdf_link` as the dashboard calls it: (label, kind, link, api key). */
  type ResultsExtractor = (string, string, string, string) -> Result<ResultsFrame, ExtractionError>

  /** The extractor built from the download, the model call and the JSON parser. */
  function PdfLinkExtractor(download: Downloader, extract: Extractor, parse: JsonParser): ResultsExtractor {
    (text, kind, link, apiKey) => ExtractFromLink(text, kind, link, apiKey, download, extract, parse)
  }
}
