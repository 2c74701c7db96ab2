/**
 * Time-window filtering of request logs (main/common/time.py): explicit ISO bounds, quick
 * presets, inclusive bounds and the ordering by timestamp. Instants are integers (seconds);
 * Django's `parse_datetime`, with its timezone handling, is an oracle `parse`.
 */
module TimeFilter {
  import opened Wrappers
  import opened Models
  import Enums
  import Seqs

  /** `_PRESET_TO_DELTA`, in seconds, keyed by the `TimePreset` member names. */
  const PresetDelta: map<string, int> :=
    map["LAST_HOUR" := 3600, "LAST_24H" := 86400, "LAST_WEEK" := 604800, "LAST_MONTH" := 2592000]

  /** Every `TimePreset` member has an entry in `_PRESET_TO_DELTA` (else the lookup raises). */
  predicate PresetsCovered(presets: seq<Enums.Member>) {
    forall i :: 0 <= i < |presets| ==> presets[i].name in PresetDelta
  }

  /**
   * `parse_iso_datetime`: nothing for a missing or empty value, otherwise what the parser
   * makes of it (nothing when it cannot parse it).
   */
  function ParseIsoDatetime(value: Option<string>, parse: string -> Option<int>): (r: Option<int>)
    ensures value.None? || value.value == "" ==> r.None?
    ensures value.Some? && value.value != "" ==> r == parse(value.value)
  {
    if value.None? || value.value == "" then None else parse(value.value)
  }

  /**
   * `preset_to_range` at instant `now`: nothing for a missing or unknown preset, otherwise
   * `(now - delta, now)` for the preset's delta.
   */
  function PresetToRange(preset: Option<string>, presets: seq<Enums.Member>, now: int): (r: Option<(int, int)>)
    requires PresetsCovered(presets)
    ensures r.Some? <==> preset.Some? && preset.value != "" && preset.value in Enums.Values(presets)
    ensures r.Some? ==> r.value.1 == now && r.value.0 < r.value.1
    ensures r.Some? ==>
              var i := Enums.ByValue(presets, preset.value).value;
              now - r.value.0 == PresetDelta[presets[i].name]
  {
    if preset.None? || preset.value == "" then None
    else
      Enums.ByValueFindsListedValues(presets, preset.value);
      match Enums.ByValue(presets, preset.value)
      case None => None
      case Some(i) => Some((now - PresetDelta[presets[i].name], now))
  }

  /** The bounds a query keeps records within; a missing bound does not restrict. */
  datatype Window = Window(since: Option<int>, until: Option<int>)

  /** Both bounds are inclusive (`__gte`, `__lte`). */
  predicate InWindow(w: Window, t: int) {
    (w.since.None? || w.since.value <= t) && (w.until.None? || t <= w.until.value)
  }

  /**
   * The bounds `filter_queryset_by_time` applies: the parsed explicit bounds, unless neither
   * parsed and a preset is given, in which case the preset's range (if it is known).
   */
  function TimeWindow(since: Option<string>, until: Option<string>, preset: Option<string>,
                      parse: string -> Option<int>, presets: seq<Enums.Member>, now: int): (w: Window)
    requires PresetsCovered(presets)
    ensures ParseIsoDatetime(since, parse).Some? || ParseIsoDatetime(until, parse).Some? ==>
              w == Window(ParseIsoDatetime(since, parse), ParseIsoDatetime(until, parse))
    ensures ParseIsoDatetime(since, parse).None? && ParseIsoDatetime(until, parse).None? ==>
              w == match PresetToRange(preset, presets, now)
                   case Some(range) => Window(Some(range.0), Some(range.1))
                   case None => Window(None, None)
  {
    var s := ParseIsoDatetime(since, parse);
    var u := ParseIsoDatetime(until, parse);
    if preset.Some? && preset.value != "" && s.None? && u.None? then
      match PresetToRange(preset, presets, now)
      case Some(range) => Window(Some(range.0), Some(range.1))
      case None => Window(s, u)
    else Window(s, u)
  }

  /**
   * `TimeOrder(order or 'desc') == TimeOrder.ASC`: the order value (default `desc`) names the
   * member `ASC`; an unknown value falls back to descending.
   */
  predicate Ascending(order: Option<string>, orders: seq<Enums.Member>) {
    var o := if order.Some? && order.value != "" then order.value else "desc";
    match Enums.ByValue(orders, o)
    case Some(i) => orders[i].name == "ASC"
    case None => false
  }

  /** Whether `a` may come before `b` in the requested direction. */
  predicate Before(a: RequestLog, b: RequestLog, asc: bool) {
    if asc then a.timestamp <= b.timestamp else a.timestamp >= b.timestamp
  }

  predicate SortedBy(s: seq<RequestLog>, asc: bool) {
    forall i, j :: 0 <= i < j < |s| ==> Before(s[i], s[j], asc)
  }

  /** `x` placed into the sorted `s` ahead of the first element it may precede. */
  function Insert(x: RequestLog, s: seq<RequestLog>, asc: bool): (r: seq<RequestLog>)
    requires SortedBy(s, asc)
    ensures SortedBy(r, asc)
    ensures multiset(r) == multiset(s) + multiset{x}
  {
    if s == [] || Before(x, s[0], asc) then
      ConsSorted(x, s, asc);
      [x] + s
    else
      var rest := Insert(x, s[1..], asc);
      assert s == [s[0]] + s[1..];
      HeadPrecedes(s[0], x, s[1..], rest, asc);
      ConsSorted(s[0], rest, asc);
      [s[0]] + rest
  }

  /** An ordered `t` stays ordered behind a `y` that may precede its head. */
  lemma ConsSorted(y: RequestLog, t: seq<RequestLog>, asc: bool)
    requires SortedBy(t, asc) && (t == [] || Before(y, t[0], asc))
    ensures SortedBy([y] + t, asc)
  {
    var r := [y] + t;
    forall i, j | 0 <= i < j < |r| ensures Before(r[i], r[j], asc) {
      if i == 0 {
        assert r[j] == t[j - 1];
        if j > 1 {
          assert Before(t[0], t[j - 1], asc);
        }
      } else {
        assert r[i] == t[i - 1] && r[j] == t[j - 1];
      }
    }
  }

  /**
   * The head `y` of an ordered `[y] + t` may precede every element of `rest`, which holds `t`
   * and `x`, when it may precede `x`.
   */
  lemma HeadPrecedes(y: RequestLog, x: RequestLog, t: seq<RequestLog>, rest: seq<RequestLog>, asc: bool)
    requires SortedBy([y] + t, asc) && Before(y, x, asc)
    requires multiset(rest) == multiset(t) + multiset{x}
    ensures forall k :: 0 <= k < |rest| ==> Before(y, rest[k], asc)
  {
    forall k | 0 <= k < |rest|
      ensures Before(y, rest[k], asc)
    {
      assert rest[k] in multiset(rest);
      if rest[k] != x {
        assert rest[k] in multiset(t);
        var j :| 0 <= j < |t| && t[j] == rest[k];
        assert ([y] + t)[0] == y && ([y] + t)[j + 1] == t[j];
      }
    }
  }

  /** The records in the requested order, by insertion. */
  function Sort(s: seq<RequestLog>, asc: bool): (r: seq<RequestLog>)
    ensures SortedBy(r, asc)
    ensures multiset(r) == multiset(s)
  {
    if s == [] then []
    else
      assert s == [s[0]] + s[1..];
      Insert(s[0], Sort(s[1..], asc), asc)
  }

  /** An already ordered sequence is left as it is. */
  lemma {:induction false} SortKeepsSorted(s: seq<RequestLog>, asc: bool)
    requires SortedBy(s, asc)
    ensures Sort(s, asc) == s
  {
    if s != [] {
      SortKeepsSorted(s[1..], asc);
      assert s == [s[0]] + s[1..];
    }
  }

  /** Sorting keeps exactly the records it is given. */
  lemma SortSameMembers(s: seq<RequestLog>, asc: bool)
    ensures forall x :: x in Sort(s, asc) <==> x in s
  {
    var r := Sort(s, asc);
    assert forall x :: x in r <==> x in multiset(r);
    assert forall x :: x in s <==> x in multiset(s);
  }

  /** The records of `logs` inside `w`, in their order (`timestamp__gte`, `timestamp__lte`). */
  function Kept(logs: seq<RequestLog>, w: Window): (r: seq<RequestLog>)
    ensures forall x :: x in r <==> x in logs && InWindow(w, x.timestamp)
    ensures multiset(r) <= multiset(logs)
    // Identical rows inside the window are all kept: a record is kept as often as it occurs.
    ensures forall y :: multiset(r)[y] == if InWindow(w, y.timestamp) then multiset(logs)[y] else 0
  {
    Seqs.Filter(logs, (x: RequestLog) => InWindow(w, x.timestamp))
  }

  /** Request logs carry no identity of their own: two identical rows inside the window are both kept. */
  lemma IdenticalRowsBothKept(x: RequestLog, w: Window)
    requires InWindow(w, x.timestamp)
    ensures Kept([x, x], w) == [x, x]
  {
    KeptAll([x, x], w);
  }

  /** Records that all lie inside `w` are all kept. */
  lemma KeptAll(logs: seq<RequestLog>, w: Window)
    requires forall x :: x in logs ==> InWindow(w, x.timestamp)
    ensures Kept(logs, w) == logs
  {
    Seqs.FilterAllPass(logs, (x: RequestLog) => InWindow(w, x.timestamp));
  }

  /** The two enumerations the filter consults; `TimePreset` and `TimeOrder`. */
  datatype TimeEnums = TimeEnums(presets: seq<Enums.Member>, orders: seq<Enums.Member>)

  /**
   * `filter_queryset_by_time` over request logs by `timestamp`, at instant `now`: exactly the
   * records inside the window, nothing added or repeated, in the requested order.
   */
  function FilterQuerysetByTime(logs: seq<RequestLog>, since: Option<string>, until: Option<string>,
                                preset: Option<string>, order: Option<string>,
                                parse: string -> Option<int>, enums: TimeEnums, now: int): (r: seq<RequestLog>)
    requires PresetsCovered(enums.presets)
    ensures var w := TimeWindow(since, until, preset, parse, enums.presets, now);
            forall x :: x in r <==> x in logs && InWindow(w, x.timestamp)
    ensures multiset(r) == multiset(Kept(logs, TimeWindow(since, until, preset, parse, enums.presets, now)))
    ensures multiset(r) <= multiset(logs)
    ensures var w := TimeWindow(since, until, preset, parse, enums.presets, now);
            forall y :: multiset(r)[y] == if InWindow(w, y.timestamp) then multiset(logs)[y] else 0
    ensures SortedBy(r, Ascending(order, enums.orders))
  {
    var kept := Kept(logs, TimeWindow(since, until, preset, parse, enums.presets, now));
    SortSameMembers(kept, Ascending(order, enums.orders));
    Sort(kept, Ascending(order, enums.orders))
  }

  /** With an explicit bound that parses, the preset plays no part. */
  lemma PresetIgnoredWithExplicitBounds(since: Option<string>, until: Option<string>, p1: Option<string>,
                                        p2: Option<string>, parse: string -> Option<int>,
                                        presets: seq<Enums.Member>, now: int)
    requires PresetsCovered(presets)
    requires ParseIsoDatetime(since, parse).Some? || ParseIsoDatetime(until, parse).Some?
    ensures TimeWindow(since, until, p1, parse, presets, now) == TimeWindow(since, until, p2, parse, presets, now)
  {
  }

  /**
   * Filtering the result again with the same explicit bounds and order changes nothing, as
   * `RequestLogViewSet` does by filtering in the mixin and again in `filter_logs`; the clock
   * may have moved between the two.
   */
  lemma FilterTwiceIsFilterOnce(logs: seq<RequestLog>, since: Option<string>, until: Option<string>,
                                preset: Option<string>, order: Option<string>,
                                parse: string -> Option<int>, enums: TimeEnums, now1: int, now2: int)
    requires PresetsCovered(enums.presets)
    requires ParseIsoDatetime(since, parse).Some? || ParseIsoDatetime(until, parse).Some?
    ensures var once := FilterQuerysetByTime(logs, since, until, preset, order, parse, enums, now1);
            FilterQuerysetByTime(once, since, until, preset, order, parse, enums, now2) == once
  {
    var once := FilterQuerysetByTime(logs, since, until, preset, order, parse, enums, now1);
    var w := TimeWindow(since, until, preset, parse, enums.presets, now1);
    assert w == TimeWindow(since, until, preset, parse, enums.presets, now2);
    KeptAll(once, w);
    SortKeepsSorted(once, Ascending(order, enums.orders));
  }

  /** The delta of the preset listed under `value`; `0` for an unlisted value. */
  function PresetDeltaOf(value: string, presets: seq<Enums.Member>): int
    requires PresetsCovered(presets)
  {
    match Enums.ByValue(presets, value)
    case Some(i) => PresetDelta[presets[i].name]
    case None => 0
  }

  /** With no explicit bound, a known preset gives the window `[now - delta, now]`. */
  lemma PresetOnlyWindow(preset: Option<string>, parse: string -> Option<int>,
                         presets: seq<Enums.Member>, now: int)
    requires PresetsCovered(presets) && PresetToRange(preset, presets, now).Some?
    ensures TimeWindow(None, None, preset, parse, presets, now)
              == Window(Some(now - PresetDeltaOf(preset.value, presets)), Some(now))
  {
  }

  /**
   * With only a preset, the two passes of `RequestLogViewSet` read the clock twice; when it
   * has moved on, the records between the two window starts are dropped, so the result is
   * the records within `[now2 - delta, now1]`.
   */
  lemma PresetFilteredTwice(logs: seq<RequestLog>, preset: Option<string>, order: Option<string>,
                            parse: string -> Option<int>, enums: TimeEnums, now1: int, now2: int)
    requires PresetsCovered(enums.presets)
    requires PresetToRange(preset, enums.presets, now1).Some? && now1 <= now2
    ensures var delta := PresetDeltaOf(preset.value, enums.presets);
            var once := FilterQuerysetByTime(logs, None, None, preset, order, parse, enums, now1);
            var twice := FilterQuerysetByTime(once, None, None, preset, order, parse, enums, now2);
            forall x :: x in twice <==> x in logs && now2 - delta <= x.timestamp <= now1
  {
    var d := PresetDeltaOf(preset.value, enums.presets);
    PresetOnlyWindow(preset, parse, enums.presets, now1);
    PresetOnlyWindow(preset, parse, enums.presets, now2);
    var once := FilterQuerysetByTime(logs, None, None, preset, order, parse, enums, now1);
    var twice := FilterQuerysetByTime(once, None, None, preset, order, parse, enums, now2);
    PresetOnlyMembers(logs, preset, order, parse, enums, now1, d);
    PresetOnlyMembers(once, preset, order, parse, enums, now2, d);
  }

  /** The members of a preset-only filter, given the preset's window. */
  lemma PresetOnlyMembers(logs: seq<RequestLog>, preset: Option<string>, order: Option<string>,
                          parse: string -> Option<int>, enums: TimeEnums, now: int, d: int)
    requires PresetsCovered(enums.presets)
    requires TimeWindow(None, None, preset, parse, enums.presets, now) == Window(Some(now - d), Some(now))
    ensures forall x :: x in FilterQuerysetByTime(logs, None, None, preset, order, parse, enums, now) <==>
                          x in logs && now - d <= x.timestamp <= now
  {
  }
}
