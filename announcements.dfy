/**
 * Exchange items and the records built from them: the item-to-record loop of
 * `get_bse_data_by_config` (bse_core.py:39-72), and the record frame that later stages read
 * and the pivot annotates.
 */
module Announcements {
  import opened Wrappers
  import opened Strings
  import opened QuarterCalendar

  /** One entry of the exchange's `Table` array; every field may be missing (JSON null). */
  datatype Item = Item(
    headline: Option<string>,   // HEADLINE
    newsSub: Option<string>,    // NEWSSUB
    attachment: Option<string>, // ATTACHMENTNAME
    newsDate: Option<string>)   // NEWS_DT

  /** A filter configuration: `filter` and `subcategory` are optional keys, `lookahead` defaults to false. */
  datatype Config = Config(
    name: string,
    category: string,
    subcategory: Option<string>,
    filter: Option<string>,
    lookahead: bool)

  /** One row of the announcements frame; `quarter` and `fiscalYear` are None until the
      quarter fetch stamps them. */
  datatype Record = Record(
    config: string,
    date: Option<string>,
    headline: Option<string>,
    title: Option<string>,
    link: Option<string>,
    quarter: Option<int>,
    fiscalYear: Option<int>)

  const AttachmentPrefix := "https://" + "www.bseindia.com/xml-data/corpfiling/AttachHis/"

  /** Python truthiness of an optional string: present and non-empty. */
  predicate Truthy(s: Option<string>) {
    s.Some? && s.value != ""
  }

  /** `x or ""` */
  function OrEmpty(s: Option<string>): string {
    if s.Some? then s.value else ""
  }

  /** The case-insensitive filter of bse_core.py:41-47: an item is kept when the config has no
      (or an empty) filter, or the lowered filter occurs in "headline newssub", both lowered. */
  predicate MatchesFilter(item: Item, config: Config) {
    !Truthy(config.filter) ||
    Contains(LowerStr(OrEmpty(item.headline)) + " " + LowerStr(OrEmpty(item.newsSub)), LowerStr(config.filter.value))
  }

  /** bse_core.py:49-51: a non-empty link that does not start with "http" gets the AttachHis prefix. */
  function AbsoluteLink(link: Option<string>): (r: Option<string>)
    ensures Truthy(r) <==> Truthy(link)
    ensures Truthy(r) ==> StartsWith(r.value, "http")
    ensures Truthy(link) ==> |link.value| <= |r.value| && r.value[|r.value| - |link.value|..] == link.value
    ensures Truthy(link) && StartsWith(link.value, "http") ==> r == link
    ensures !Truthy(link) ==> r == link
  {
    if Truthy(link) && !StartsWith(link.value, "http") then
      assert (AttachmentPrefix + link.value)[..8] == "https://";
      Some(AttachmentPrefix + link.value)
    else link
  }

  /** Absolutising a link twice changes nothing more. */
  lemma AbsoluteLinkIdempotent(link: Option<string>)
    ensures AbsoluteLink(AbsoluteLink(link)) == AbsoluteLink(link)
  {
  }

  /** `raw.split(".")[0]`: the text before the first '.', or all of it. */
  function CutAtDot(s: string): (r: string)
    ensures '.' !in r && StartsWith(s, r)
    ensures |r| == |s| || s[|r|] == '.'
  {
    if s == [] || s[0] == '.' then [] else [s[0]] + CutAtDot(s[1..])
  }

  lemma {:induction false} CutAtDotOf(x: string, tail: string)
    requires '.' !in x
    requires tail == [] || tail[0] == '.'
    ensures CutAtDot(x + tail) == x
  {
    if x != [] {
      assert x[0] in x;
      assert (x + tail)[1..] == x[1..] + tail;
      assert forall c :: c in x[1..] ==> c in x;
      CutAtDotOf(x[1..], tail);
    } else {
      assert x + tail == tail;
    }
  }

  /** Positions of the fields of "YYYY-MM-DDTHH:MM:SS". */
  predicate TimestampShape(s: string) {
    && |s| == 19
    && AllDigits(s[..4]) && s[4] == '-' && AllDigits(s[5..7]) && s[7] == '-' && AllDigits(s[8..10])
    && s[10] == 'T' && AllDigits(s[11..13]) && s[13] == ':' && AllDigits(s[14..16]) && s[16] == ':'
    && AllDigits(s[17..])
  }

  /** `strftime("%Y-%m-%d")` */
  function FormatIsoDate(d: Date): (s: string)
    requires ValidDate(d)
    ensures |s| == 10
  {
    FixedDigits(d.year, 4) + "-" + FixedDigits(d.month, 2) + "-" + FixedDigits(d.day, 2)
  }

  /**
   * `datetime.strptime(s, "%Y-%m-%dT%H:%M:%S")` on two-digit fields: the date must exist
   * (month 1..12, day within the month, leap years included) and the clock must read at most
   * 23:59:59. A parsed date printed back with `FormatIsoDate` is the text's first ten characters.
   */
  function ParseTimestamp(s: string): (r: Option<Date>)
    ensures r.Some? ==> TimestampShape(s) && ValidDate(r.value) && FormatIsoDate(r.value) == s[..10]
  {
    if !TimestampShape(s) then None
    else
      var d := Date(DecimalValue(s[..4]), DecimalValue(s[5..7]), DecimalValue(s[8..10]));
      if ValidDate(d) && DecimalValue(s[11..13]) <= 23 && DecimalValue(s[14..16]) <= 59 && DecimalValue(s[17..]) <= 59
      then
        FixedDigitsOfValue(s[..4]);
        FixedDigitsOfValue(s[5..7]);
        FixedDigitsOfValue(s[8..10]);
        assert s[..10] == s[..4] + "-" + s[5..7] + "-" + s[8..10];
        Some(d)
      else None
  }

  /**
   * The date normalisation of bse_core.py:53-60: the text is cut at its first '.', then parsed;
   * a parsed date is written back as YYYY-MM-DD, and otherwise the (cut) raw text is kept. A
   * missing date fails inside the `try` and stays missing. Either way the stored date is a
   * prefix of what the exchange sent.
   */
  function NormalizeDate(raw: Option<string>): (r: Option<string>)
    ensures raw.None? <==> r.None?
    ensures raw.Some? ==> StartsWith(raw.value, r.value)
    ensures raw.Some? && ParseTimestamp(CutAtDot(raw.value)).None? ==> r.value == CutAtDot(raw.value)
  {
    match raw
    case None => None
    case Some(s) =>
      var cut := CutAtDot(s);
      match ParseTimestamp(cut)
      case Some(d) => Some(FormatIsoDate(d))
      case None => Some(cut)
  }

  /** The text the exchange sends for a timestamp: "YYYY-MM-DDTHH:MM:SS". */
  function TimestampText(d: Date, h: nat, mi: nat, sec: nat): string
    requires ValidDate(d) && h < 24 && mi < 60 && sec < 60
  {
    FormatIsoDate(d) + "T" + FixedDigits(h, 2) + ":" + FixedDigits(mi, 2) + ":" + FixedDigits(sec, 2)
  }

  /** A well-formed timestamp, with or without a fractional part, normalises to its date. */
  lemma NormalizeTimestamp(d: Date, h: nat, mi: nat, sec: nat, fraction: string)
    requires ValidDate(d) && h < 24 && mi < 60 && sec < 60
    requires fraction == [] || fraction[0] == '.'
    ensures NormalizeDate(Some(TimestampText(d, h, mi, sec) + fraction)) == Some(FormatIsoDate(d))
  {
    var t := TimestampText(d, h, mi, sec);
    TimestampFields(d, h, mi, sec);
    TimestampNoDot(d, h, mi, sec);
    CutAtDotOf(t, fraction);
    TimestampParses(d, h, mi, sec);
  }

  /** Where each field of a timestamp's text sits. */
  lemma TimestampFields(d: Date, h: nat, mi: nat, sec: nat)
    requires ValidDate(d) && h < 24 && mi < 60 && sec < 60
    ensures var t := TimestampText(d, h, mi, sec);
      && |t| == 19
      && t[..4] == FixedDigits(d.year, 4) && t[4] == '-' && t[5..7] == FixedDigits(d.month, 2)
      && t[7] == '-' && t[8..10] == FixedDigits(d.day, 2) && t[10] == 'T'
      && t[11..13] == FixedDigits(h, 2) && t[13] == ':' && t[14..16] == FixedDigits(mi, 2)
      && t[16] == ':' && t[17..] == FixedDigits(sec, 2)
  {
    TimestampLayout(FixedDigits(d.year, 4), FixedDigits(d.month, 2), FixedDigits(d.day, 2),
                    FixedDigits(h, 2), FixedDigits(mi, 2), FixedDigits(sec, 2));
  }

  /** The layout "YYYY-MM-DDTHH:MM:SS" for any fields of the right widths. */
  lemma TimestampLayout(y: string, m: string, dd: string, hh: string, mm: string, ss: string)
    requires |y| == 4 && |m| == 2 && |dd| == 2 && |hh| == 2 && |mm| == 2 && |ss| == 2
    ensures var t := y + "-" + m + "-" + dd + "T" + hh + ":" + mm + ":" + ss;
      && |t| == 19
      && t[..4] == y && t[4] == '-' && t[5..7] == m && t[7] == '-' && t[8..10] == dd && t[10] == 'T'
      && t[11..13] == hh && t[13] == ':' && t[14..16] == mm && t[16] == ':' && t[17..] == ss
  {
  }

  /** A timestamp's text holds digits and separators only, never a '.'. */
  lemma TimestampNoDot(d: Date, h: nat, mi: nat, sec: nat)
    requires ValidDate(d) && h < 24 && mi < 60 && sec < 60
    ensures '.' !in TimestampText(d, h, mi, sec)
  {
    LayoutNoDot(FixedDigits(d.year, 4), FixedDigits(d.month, 2), FixedDigits(d.day, 2),
                FixedDigits(h, 2), FixedDigits(mi, 2), FixedDigits(sec, 2));
  }

  /** Digit fields laid out as "YYYY-MM-DDTHH:MM:SS" give a text without a '.'. */
  lemma LayoutNoDot(y: string, m: string, dd: string, hh: string, mm: string, ss: string)
    requires |y| == 4 && |m| == 2 && |dd| == 2 && |hh| == 2 && |mm| == 2 && |ss| == 2
    requires AllDigits(y) && AllDigits(m) && AllDigits(dd) && AllDigits(hh) && AllDigits(mm) && AllDigits(ss)
    ensures '.' !in y + "-" + m + "-" + dd + "T" + hh + ":" + mm + ":" + ss
  {
    var t := y + "-" + m + "-" + dd + "T" + hh + ":" + mm + ":" + ss;
    TimestampLayout(y, m, dd, hh, mm, ss);
    forall i | 0 <= i < |t| ensures t[i] != '.' {
      if i < 4 { assert t[i] == y[i]; }
      else if 5 <= i < 7 { assert t[i] == m[i - 5]; }
      else if 8 <= i < 10 { assert t[i] == dd[i - 8]; }
      else if 11 <= i < 13 { assert t[i] == hh[i - 11]; }
      else if 14 <= i < 16 { assert t[i] == mm[i - 14]; }
      else if 17 <= i { assert t[i] == ss[i - 17]; }
    }
  }

  /** A timestamp's text parses back to its date. */
  lemma TimestampParses(d: Date, h: nat, mi: nat, sec: nat)
    requires ValidDate(d) && h < 24 && mi < 60 && sec < 60
    ensures ParseTimestamp(TimestampText(d, h, mi, sec)) == Some(d)
  {
    var t := TimestampText(d, h, mi, sec);
    TimestampFields(d, h, mi, sec);
    assert TimestampShape(t);
  }

  /** The record built from one item that passed the filter (bse_core.py:62-70). */
  function ToRecord(item: Item, config: Config): Record {
    Record(config.name, NormalizeDate(item.newsDate), item.headline, item.newsSub,
           AbsoluteLink(item.attachment), None, None)
  }

  /** The records the loop of bse_core.py:40-70 appends, for the first |items| items. */
  function Built(items: seq<Item>, config: Config): (rs: seq<Record>)
    ensures |rs| <= |items|
    ensures forall r :: r in rs ==> r.config == config.name && r.quarter.None? && r.fiscalYear.None?
  {
    if items == [] then []
    else
      var prev := Built(items[..|items| - 1], config);
      var last := items[|items| - 1];
      if MatchesFilter(last, config) then prev + [ToRecord(last, config)] else prev
  }

  /** A record is built exactly for the items that pass the filter. */
  lemma {:induction false} BuiltMembership(items: seq<Item>, config: Config, r: Record)
    ensures r in Built(items, config) <==>
      exists i :: 0 <= i < |items| && MatchesFilter(items[i], config) && r == ToRecord(items[i], config)
  {
    if items != [] {
      var init := items[..|items| - 1];
      BuiltMembership(init, config, r);
      if r in Built(items, config) && r !in Built(init, config) {
        assert r == ToRecord(items[|items| - 1], config);
      }
      if exists i :: 0 <= i < |items| && MatchesFilter(items[i], config) && r == ToRecord(items[i], config) {
        var i :| 0 <= i < |items| && MatchesFilter(items[i], config) && r == ToRecord(items[i], config);
        if i < |items| - 1 {
          assert items[i] == init[i];
        }
      }
    }
  }

  /** Without a filter every item becomes a record, in item order. */
  lemma {:induction false} BuiltUnfiltered(items: seq<Item>, config: Config)
    requires !Truthy(config.filter)
    ensures |Built(items, config)| == |items|
    ensures forall i :: 0 <= i < |items| ==> Built(items, config)[i] == ToRecord(items[i], config)
  {
    if items != [] {
      var init := items[..|items| - 1];
      BuiltUnfiltered(init, config);
      var prev := Built(init, config);
      assert Built(items, config) == prev + [ToRecord(items[|items| - 1], config)];
      forall i | 0 <= i < |items|
        ensures Built(items, config)[i] == ToRecord(items[i], config)
      {
        if i < |items| - 1 {
          assert items[i] == init[i];
        }
      }
    }
  }

  /** `get_bse_data_by_config` after the HTTP call: the loop over the items that appends one
      record per item passing the filter. */
  method BuildRecords(items: seq<Item>, config: Config) returns (results: seq<Record>)
    ensures results == Built(items, config)
  {
    results := [];
    for i := 0 to |items|
      invariant results == Built(items[..i], config)
    {
      assert items[..i + 1][..i] == items[..i];
      var item := items[i];
      if MatchesFilter(item, config) {
        results := results + [ToRecord(item, config)];
      }
    }
    assert items[..|items|] == items;
  }

  /** The values of the frame's `Config` column, as a set. */
  function RowNames(rows: seq<Record>): set<string> {
    set r | r in rows :: r.config
  }

  /**
   * The announcements DataFrame: its rows, and the `Quarter_FY` column that
   * `pivot_announcement_links` adds to it in place (None until then).
   */
  class DocumentFrame {
    var records: seq<Record>
    var quarterFy: Option<seq<string>>

    constructor (records: seq<Record>)
      ensures this.records == records && quarterFy == None
    {
      this.records := records;
      quarterFy := None;
    }
  }
}
